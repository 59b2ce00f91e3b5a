/** The statistics layer of the inflammation analysis: per-day reductions of
    one inflammation table over its patients, per-patient normalisation, and
    the spread of the daily means across several datasets.

    An inflammation table has one row per patient and one column per day.
    Entries are exact reals rather than floating-point numbers. */
module Models {
  import opened Reductions

  /** The errors the statistics raise, each at the point the original raises it. */
  datatype Error =
    | NotTwoDimensional  // patient_normalise given an array that is not 2-D
    | NegativeValue      // patient_normalise given a negative measurement
    | ZeroSizeReduction  // the per-patient maximum taken over zero days
    | EmptyStack         // stacking the daily means of zero datasets
    | ShapeMismatch      // stacking daily means of different lengths

  datatype Result<T> = Ok(value: T) | Err(error: Error) {
    predicate IsFailure() { Err? }
    function PropagateFailure<U>(): Result<U> requires Err? { Err(error) }
    function Extract(): T requires Ok? { value }
  }

  type Table = seq<Vector>

  /** Every patient has the same number of days: the table is a 2-D array. */
  predicate IsRectangular(t: Table) {
    forall i :: 0 <= i < |t| ==> |t[i]| == |t[0]|
  }

  /** Number of days (columns); a table without patients has none. */
  function Days(t: Table): nat {
    if |t| == 0 then 0 else |t[0]|
  }

  /** A table the per-day reductions accept: 2-D with at least one patient. */
  predicate IsDataset(t: Table) {
    |t| > 0 && IsRectangular(t)
  }

  predicate IsNonNegative(t: Table) {
    forall i, j :: 0 <= i < |t| && 0 <= j < |t[i]| ==> 0.0 <= t[i][j]
  }

  /** The measurements of all patients on day `d`. */
  function Column(t: Table, d: nat): (c: Vector)
    requires IsRectangular(t) && d < Days(t)
    ensures |c| == |t|
    ensures forall i :: 0 <= i < |t| ==> c[i] == t[i][d]
  {
    seq(|t|, i requires 0 <= i < |t| => t[i][d])
  }

  // ---------------------------------------------------------------------------
  // daily_mean, daily_max, daily_min: reductions over the patient axis

  /** Mean over patients, one value per day. */
  function DailyMean(t: Table): (r: Vector)
    requires IsDataset(t)
    ensures |r| == Days(t)
  {
    seq(Days(t), d requires 0 <= d < Days(t) => Mean(Column(t, d)))
  }

  /** Maximum over patients, one value per day: at least every patient's
      value on that day, and equal to one of them. */
  function DailyMax(t: Table): (r: Vector)
    requires IsDataset(t)
    ensures |r| == Days(t)
    ensures forall i, d :: 0 <= i < |t| && 0 <= d < |r| ==> t[i][d] <= r[d]
    ensures forall d :: 0 <= d < |r| ==> exists i :: 0 <= i < |t| && r[d] == t[i][d]
  {
    var r := seq(Days(t), d requires 0 <= d < Days(t) => Max(Column(t, d)));
    assert forall d :: 0 <= d < |r| ==> r[d] == Max(Column(t, d));
    r
  }

  /** Minimum over patients, one value per day: at most every patient's
      value on that day, and equal to one of them. */
  function DailyMin(t: Table): (r: Vector)
    requires IsDataset(t)
    ensures |r| == Days(t)
    ensures forall i, d :: 0 <= i < |t| && 0 <= d < |r| ==> r[d] <= t[i][d]
    ensures forall d :: 0 <= d < |r| ==> exists i :: 0 <= i < |t| && r[d] == t[i][d]
  {
    var r := seq(Days(t), d requires 0 <= d < Days(t) => Min(Column(t, d)));
    assert forall d :: 0 <= d < |r| ==> r[d] == Min(Column(t, d));
    r
  }

  /** On every day the mean lies between the minimum and the maximum. */
  lemma DailyMinMeanMax(t: Table)
    requires IsDataset(t)
    ensures forall d :: 0 <= d < Days(t) ==> DailyMin(t)[d] <= DailyMean(t)[d] <= DailyMax(t)[d]
  {
    forall d | 0 <= d < Days(t)
      ensures DailyMin(t)[d] <= DailyMean(t)[d] <= DailyMax(t)[d]
    {
      var c := Column(t, d);
      MeanLowerBound(c, DailyMin(t)[d]);
      MeanUpperBound(c, DailyMax(t)[d]);
    }
  }

  /** A day on which every patient has the same value `x` has mean, maximum
      and minimum `x`. */
  lemma DailyStatsOfUniformDay(t: Table, d: nat, x: real)
    requires IsDataset(t) && d < Days(t)
    requires forall i :: 0 <= i < |t| ==> t[i][d] == x
    ensures DailyMean(t)[d] == x && DailyMax(t)[d] == x && DailyMin(t)[d] == x
  {
    MeanOfConstant(Column(t, d), x);
  }

  // ---------------------------------------------------------------------------
  // patient_normalise

  /** One entry divided by its patient's maximum `m`. With non-negative
      entries, `m == 0` means the entry is 0 too, and 0/0 (NaN) becomes 0. */
  function NormaliseEntry(x: real, m: real): real {
    if m == 0.0 then 0.0 else x / m
  }

  /** Every entry of a patient's row over that row's maximum. */
  function NormaliseRow(row: Vector): (r: Vector)
    requires |row| > 0
    ensures |r| == |row|
  {
    var m := Max(row);
    seq(|row|, j requires 0 <= j < |row| => NormaliseEntry(row[j], m))
  }

  /** Validates the table, then scales each patient's row by its maximum. */
  function PatientNormalise(t: Table): (r: Result<Table>)
    ensures r.Ok? <==> IsRectangular(t) && IsNonNegative(t) && Days(t) > 0
    ensures !IsRectangular(t) ==> r == Err(NotTwoDimensional)
    ensures IsRectangular(t) && !IsNonNegative(t) ==> r == Err(NegativeValue)
    ensures IsRectangular(t) && IsNonNegative(t) && Days(t) == 0 ==> r == Err(ZeroSizeReduction)
    ensures r.Ok? ==> |r.value| == |t| && IsRectangular(r.value) && Days(r.value) == Days(t)
    ensures r.Ok? ==> forall i, j :: 0 <= i < |t| && 0 <= j < Days(t) ==> 0.0 <= r.value[i][j] <= 1.0
  {
    if !IsRectangular(t) then Err(NotTwoDimensional)
    else if !IsNonNegative(t) then Err(NegativeValue)
    else if Days(t) == 0 then Err(ZeroSizeReduction)
    else
      var n := seq(|t|, i requires 0 <= i < |t| => NormaliseRow(t[i]));
      assert forall i, j :: 0 <= i < |t| && 0 <= j < Days(t) ==> 0.0 <= n[i][j] <= 1.0 by {
        forall i, j | 0 <= i < |t| && 0 <= j < Days(t) ensures 0.0 <= n[i][j] <= 1.0 {
          NormalisedEntryBounds(t[i][j], Max(t[i]));
        }
      }
      Ok(n)
  }

  lemma NormalisedEntryBounds(x: real, m: real)
    requires 0.0 <= x <= m
    ensures 0.0 <= NormaliseEntry(x, m) <= 1.0
    ensures NormaliseEntry(x, m) * m == x
    ensures 0.0 < m == x ==> NormaliseEntry(x, m) == 1.0
  {
    if m != 0.0 {
      var q := x / m;
      assert q <= m / m;
      assert q * m == x;
      ProductSign(q - 1.0, m, q * m - m);
    }
  }

  lemma EntryScalesBack(q: real, x: real, m: real)
    requires 0.0 <= x <= m && q == NormaliseEntry(x, m)
    ensures q * m == x
  {
    NormalisedEntryBounds(x, m);
  }

  /** Entry (i, j) of a successful normalisation. */
  lemma PatientNormaliseAt(t: Table, i: nat, j: nat)
    requires PatientNormalise(t).Ok?
    requires i < |t| && j < Days(t)
    ensures j < |t[i]| && j < |PatientNormalise(t).value[i]|
    ensures PatientNormalise(t).value[i][j] == NormaliseEntry(t[i][j], Max(t[i]))
    ensures 0.0 <= t[i][j] <= Max(t[i])
  {
  }

  /** In a normalised row with a positive maximum, every entry is at most 1
      and the patient's largest measurement has become exactly 1. */
  lemma NormalisedRowMaximum(row: Vector)
    requires |row| > 0
    requires forall j :: 0 <= j < |row| ==> 0.0 <= row[j]
    requires Max(row) > 0.0
    ensures forall j :: 0 <= j < |row| ==> NormaliseRow(row)[j] <= 1.0
    ensures exists k :: 0 <= k < |row| && NormaliseRow(row)[k] == 1.0
  {
    var m := Max(row);
    var n := NormaliseRow(row);
    var k :| 0 <= k < |row| && m == row[k];
    NormalisedEntryBounds(m, m);
    assert n[k] == 1.0;
    forall j | 0 <= j < |row| ensures n[j] <= 1.0 {
      NormalisedEntryBounds(row[j], m);
    }
  }

  /** Row by row, a successful normalisation turns a patient whose maximum
      is 0 into all zeros and gives every other patient maximum exactly 1. */
  lemma PatientNormaliseRows(t: Table)
    requires PatientNormalise(t).Ok?
    ensures forall i :: 0 <= i < |t| ==> PatientNormalise(t).value[i] == NormaliseRow(t[i])
    ensures forall i :: 0 <= i < |t| && Max(t[i]) == 0.0 ==>
      forall j :: 0 <= j < Days(t) ==> PatientNormalise(t).value[i][j] == 0.0
    ensures forall i :: 0 <= i < |t| && Max(t[i]) > 0.0 ==> Max(PatientNormalise(t).value[i]) == 1.0
  {
    forall i | 0 <= i < |t| && Max(t[i]) > 0.0
      ensures Max(PatientNormalise(t).value[i]) == 1.0
    {
      var n := NormaliseRow(t[i]);
      NormalisedRowMaximum(t[i]);
      var top := Max(n);
      var l :| 0 <= l < |n| && top == n[l];
    }
  }

  /** Every entry of `row` multiplied by `m`. */
  function Scale(row: Vector, m: real): (r: Vector)
    ensures |r| == |row|
  {
    seq(|row|, j requires 0 <= j < |row| => row[j] * m)
  }

  /** Scaling a normalised row back by the patient's maximum recovers the
      original measurements: normalisation loses nothing but the scale. */
  lemma PatientNormaliseRecoversInput(t: Table)
    requires PatientNormalise(t).Ok?
    ensures forall i :: 0 <= i < |t| ==> Scale(PatientNormalise(t).value[i], Max(t[i])) == t[i]
  {
    forall i | 0 <= i < |t| ensures Scale(PatientNormalise(t).value[i], Max(t[i])) == t[i] {
      assert PatientNormalise(t).value[i] == NormaliseRow(t[i]);
      RowRecovered(t[i]);
    }
  }

  lemma ScaledEntry(n: Vector, x: real, m: real, j: nat)
    requires j < |n| && 0.0 <= x <= m && n[j] == NormaliseEntry(x, m)
    ensures Scale(n, m)[j] == x
  {
    EntryScalesBack(n[j], x, m);
  }

  lemma RowRecovered(row: Vector)
    requires |row| > 0
    requires forall j :: 0 <= j < |row| ==> 0.0 <= row[j]
    ensures Scale(NormaliseRow(row), Max(row)) == row
  {
    var m := Max(row);
    var n := NormaliseRow(row);
    var back := Scale(n, m);
    forall j | 0 <= j < |row| ensures back[j] == row[j] {
      ScaledEntry(n, row[j], m, j);
    }
  }

  /** Normalising an already normalised table changes nothing. */
  lemma PatientNormaliseIdempotent(t: Table)
    requires PatientNormalise(t).Ok?
    ensures PatientNormalise(PatientNormalise(t).value) == PatientNormalise(t)
  {
    var n := PatientNormalise(t).value;
    PatientNormaliseRows(t);
    assert IsNonNegative(n);
    var n2 := PatientNormalise(n).value;
    assert n2 == seq(|n|, i requires 0 <= i < |n| => NormaliseRow(n[i]));
    forall i | 0 <= i < |n|
      ensures NormaliseRow(n[i]) == n[i]
    {
      NormalisedRowIsFixed(t, i);
    }
    assert n2 == n;
  }

  /** A normalised row has maximum 0 (all zeros) or 1, so normalising it
      again returns it unchanged. */
  lemma NormalisedRowIsFixed(t: Table, i: nat)
    requires PatientNormalise(t).Ok?
    requires i < |t|
    ensures NormaliseRow(PatientNormalise(t).value[i]) == PatientNormalise(t).value[i]
  {
    var row := PatientNormalise(t).value[i];
    PatientNormaliseRows(t);
    var m := Max(row);
    if Max(t[i]) == 0.0 {
      var l :| 0 <= l < |row| && m == row[l];
      assert m == 0.0;
      assert forall j :: 0 <= j < |row| ==> row[j] == 0.0;
    } else {
      assert m == 1.0;
      assert forall j :: 0 <= j < |row| ==> row[j] / 1.0 == row[j];
    }
  }

  // ---------------------------------------------------------------------------
  // compute_standard_deviation_by_day, analyse_data

  /** The daily mean of each dataset, in order. */
  function MeansByDay(datasets: seq<Table>): (r: seq<Vector>)
    requires forall k :: 0 <= k < |datasets| ==> IsDataset(datasets[k])
    ensures |r| == |datasets|
    ensures forall k :: 0 <= k < |r| ==> r[k] == DailyMean(datasets[k])
  {
    seq(|datasets|, k requires 0 <= k < |datasets| => DailyMean(datasets[k]))
  }

  /** Joins equally long vectors into a matrix with one row per vector. */
  function Stack(vectors: seq<Vector>): (r: Result<Table>)
    ensures r.Ok? <==> |vectors| > 0 && IsRectangular(vectors)
    ensures r.Ok? ==> r.value == vectors
    ensures |vectors| == 0 ==> r == Err(EmptyStack)
    ensures |vectors| > 0 && !IsRectangular(vectors) ==> r == Err(ShapeMismatch)
  {
    if |vectors| == 0 then Err(EmptyStack)
    else if !IsRectangular(vectors) then Err(ShapeMismatch)
    else Ok(vectors)
  }

  /** Population variance over the rows of a matrix, one value per column. */
  function VarianceByDay(m: Table): (r: Vector)
    requires IsDataset(m)
    ensures |r| == Days(m)
    ensures forall d :: 0 <= d < |r| ==> 0.0 <= r[d]
  {
    seq(Days(m), d requires 0 <= d < Days(m) => Variance(Column(m, d)))
  }

  /** The datasets all cover the same number of days. */
  predicate SameDays(datasets: seq<Table>)
  {
    forall k :: 0 <= k < |datasets| ==> Days(datasets[k]) == Days(datasets[0])
  }

  /** Square of the standard deviation by day: stack the daily means of the
      datasets and take the population variance of each day's column. */
  function VarianceOfDailyMeans(datasets: seq<Table>): (r: Result<Vector>)
    requires forall k :: 0 <= k < |datasets| ==> IsDataset(datasets[k])
    ensures r.Ok? <==> |datasets| > 0 && SameDays(datasets)
    ensures |datasets| == 0 ==> r == Err(EmptyStack)
    ensures |datasets| > 0 && !SameDays(datasets) ==> r == Err(ShapeMismatch)
    ensures r.Ok? ==> |r.value| == Days(datasets[0])
    ensures r.Ok? ==> forall d :: 0 <= d < |r.value| ==> 0.0 <= r.value[d]
  {
    var means :- Stack(MeansByDay(datasets));
    Ok(VarianceByDay(means))
  }

  /** `y` is the non-negative square root of `x`. */
  predicate IsSquareRoot(y: real, x: real)
  {
    0.0 <= y && y * y == x
  }

  /** `sqrt` is the square root on the non-negative reals. */
  ghost predicate IsSqrt(sqrt: real -> real)
  {
    forall x :: 0.0 <= x ==> IsSquareRoot(sqrt(x), x)
  }

  /** Standard deviation of the daily means across datasets, one value per
      day. `sqrt` stands for the library square root. */
  function ComputeStandardDeviationByDay(datasets: seq<Table>, sqrt: real -> real): (r: Result<Vector>)
    requires forall k :: 0 <= k < |datasets| ==> IsDataset(datasets[k])
    ensures r.Ok? <==> |datasets| > 0 && SameDays(datasets)
    ensures |datasets| == 0 ==> r == Err(EmptyStack)
    ensures |datasets| > 0 && !SameDays(datasets) ==> r == Err(ShapeMismatch)
    ensures r.Ok? ==> |r.value| == Days(datasets[0])
  {
    var variance :- VarianceOfDailyMeans(datasets);
    Ok(seq(|variance|, d requires 0 <= d < |variance| => sqrt(variance[d])))
  }

  /** The daily means of all datasets agree on day `d`. */
  predicate SameMeanOnDay(datasets: seq<Table>, d: nat)
    requires forall k :: 0 <= k < |datasets| ==> IsDataset(datasets[k])
    requires forall k :: 0 <= k < |datasets| ==> d < Days(datasets[k])
  {
    forall k, l :: 0 <= k < |datasets| && 0 <= l < |datasets| ==>
      DailyMean(datasets[k])[d] == DailyMean(datasets[l])[d]
  }

  /** The variance on a day is zero exactly when every dataset has the same
      mean on that day. */
  lemma VarianceZeroIffSameMean(datasets: seq<Table>, d: nat)
    requires forall k :: 0 <= k < |datasets| ==> IsDataset(datasets[k])
    requires VarianceOfDailyMeans(datasets).Ok?
    requires d < |VarianceOfDailyMeans(datasets).value|
    ensures VarianceOfDailyMeans(datasets).value[d] == 0.0 <==> SameMeanOnDay(datasets, d)
  {
    var means := MeansByDay(datasets);
    var c := Column(means, d);
    VarianceZeroIffConstant(c);
  }

  /** With a true square root, each day's value is a square root of that
      day's variance (so non-negative), and is zero exactly when all
      datasets share that day's mean. */
  lemma StandardDeviationProperties(datasets: seq<Table>, sqrt: real -> real)
    requires forall k :: 0 <= k < |datasets| ==> IsDataset(datasets[k])
    requires IsSqrt(sqrt)
    requires ComputeStandardDeviationByDay(datasets, sqrt).Ok?
    ensures forall d :: 0 <= d < Days(datasets[0]) ==>
      IsSquareRoot(ComputeStandardDeviationByDay(datasets, sqrt).value[d], VarianceOfDailyMeans(datasets).value[d])
    ensures forall d :: 0 <= d < Days(datasets[0]) ==>
      (ComputeStandardDeviationByDay(datasets, sqrt).value[d] == 0.0 <==> SameMeanOnDay(datasets, d))
  {
    forall d | 0 <= d < Days(datasets[0])
      ensures IsSquareRoot(ComputeStandardDeviationByDay(datasets, sqrt).value[d], VarianceOfDailyMeans(datasets).value[d])
      ensures ComputeStandardDeviationByDay(datasets, sqrt).value[d] == 0.0 <==> SameMeanOnDay(datasets, d)
    {
      StandardDeviationOnDay(datasets, sqrt, d);
    }
  }

  lemma StandardDeviationOnDay(datasets: seq<Table>, sqrt: real -> real, d: nat)
    requires forall k :: 0 <= k < |datasets| ==> IsDataset(datasets[k])
    requires IsSqrt(sqrt)
    requires ComputeStandardDeviationByDay(datasets, sqrt).Ok?
    requires d < Days(datasets[0])
    ensures IsSquareRoot(ComputeStandardDeviationByDay(datasets, sqrt).value[d], VarianceOfDailyMeans(datasets).value[d])
    ensures ComputeStandardDeviationByDay(datasets, sqrt).value[d] == 0.0 <==> SameMeanOnDay(datasets, d)
  {
    var v := VarianceOfDailyMeans(datasets).value[d];
    var sd := ComputeStandardDeviationByDay(datasets, sqrt).value[d];
    assert sd == sqrt(v);
    assert IsSquareRoot(sd, v);
    VarianceZeroIffSameMean(datasets, d);
    SquareSign(sd, v);
  }

  /** The pipeline entry point: the data source has already produced its
      tables, which go unchanged to the standard deviation by day. */
  function AnalyseData(source: seq<Table>, sqrt: real -> real): (r: Result<Vector>)
    requires forall k :: 0 <= k < |source| ==> IsDataset(source[k])
    ensures |source| == 0 ==> r == Err(EmptyStack)
    ensures r == ComputeStandardDeviationByDay(source, sqrt)
  {
    ComputeStandardDeviationByDay(source, sqrt)
  }

  /** Two single-patient datasets [0, 2, 0] and [0, 1, 0]: the variance of
      their daily means is [0, 0.25, 0], so with any square root the
      standard deviation by day is [0, 0.5, 0] = [0, sqrt(0.25), 0]. */
  lemma TwoDatasetsRegression(sqrt: real -> real)
    requires IsSqrt(sqrt)
    ensures VarianceOfDailyMeans([[[0.0, 2.0, 0.0]], [[0.0, 1.0, 0.0]]]) == Ok([0.0, 0.25, 0.0])
    ensures AnalyseData([[[0.0, 2.0, 0.0]], [[0.0, 1.0, 0.0]]], sqrt) == Ok([0.0, 0.5, 0.0])
  {
    RegressionVariance();
    var sds := AnalyseData([[[0.0, 2.0, 0.0]], [[0.0, 1.0, 0.0]]], sqrt).value;
    assert sqrt(0.0) == 0.0 by {
      assert IsSquareRoot(sqrt(0.0), 0.0);
      SquareSign(sqrt(0.0), 0.0);
    }
    assert sqrt(0.25) == 0.5 by {
      assert IsSquareRoot(sqrt(0.25), 0.25);
      SquareRootOfQuarter(sqrt(0.25));
    }
    assert sds == [0.0, 0.5, 0.0];
  }

  lemma RegressionMeans()
    ensures MeansByDay([[[0.0, 2.0, 0.0]], [[0.0, 1.0, 0.0]]]) == [[0.0, 2.0, 0.0], [0.0, 1.0, 0.0]]
  {
    var a: Table := [[0.0, 2.0, 0.0]];
    var b: Table := [[0.0, 1.0, 0.0]];
    forall d | 0 <= d < 3 ensures DailyMean(a)[d] == a[0][d] && DailyMean(b)[d] == b[0][d] {
      MeanOfConstant(Column(a, d), a[0][d]);
      MeanOfConstant(Column(b, d), b[0][d]);
    }
    assert DailyMean(a) == a[0];
    assert DailyMean(b) == b[0];
  }

  lemma RegressionVariance()
    ensures VarianceOfDailyMeans([[[0.0, 2.0, 0.0]], [[0.0, 1.0, 0.0]]]) == Ok([0.0, 0.25, 0.0])
  {
    RegressionMeans();
    var means: Table := [[0.0, 2.0, 0.0], [0.0, 1.0, 0.0]];
    VarianceZeroIffConstant(Column(means, 0));
    VarianceZeroIffConstant(Column(means, 2));
    SpreadOfTwoAndOne(Column(means, 1));
    assert VarianceByDay(means) == [0.0, 0.25, 0.0];
  }

  lemma SpreadOfTwoAndOne(c: Vector)
    requires c == [2.0, 1.0]
    ensures Variance(c) == 0.25
  {
    assert c[1..] == [1.0] && c[1..][1..] == [];
    assert Sum(c[1..]) == 1.0 + Sum([]);
    assert Mean(c) == 1.5;
    var dev := SquaredDeviations(c, 1.5);
    assert dev == [0.25, 0.25];
    assert dev[1..] == [0.25] && dev[1..][1..] == [];
    assert Sum(dev[1..]) == 0.25 + Sum([]);
    assert Sum(dev) == 0.5;
  }

  lemma SquareRootOfQuarter(y: real)
    requires 0.0 <= y && y * y == 0.25
    ensures y == 0.5
  {
    ProductSign(y - 0.5, y + 0.5, y * y - 0.25);
  }
}
