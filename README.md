# Inflammation statistics, modelled in Dafny

A model of the statistics layer of a small patient-inflammation analysis
tool (`inflammation/models.py`). An inflammation table holds one row per
patient and one column per day. The model covers:

- the per-day reductions over patients: `daily_mean`, `daily_max`, `daily_min`;
- `patient_normalise`, which validates a table and divides each patient's
  row by that patient's maximum, turning the undefined 0/0 entries into 0;
- `compute_standard_deviation_by_day`, which takes the daily mean of every
  dataset, stacks those vectors, and takes the population standard deviation
  (divisor N) of each day's column;
- `analyse_data`, which hands the tables of a data source to the step above.

Numbers are exact Dafny `real`s, not IEEE floats. The numpy reductions
(sum, max, min, mean, population variance) are defined directly in module
`Reductions` (`reductions.dfy`). The statistics themselves are in module
`Models` (`models.dfy`). The source's exceptions become a `Result` with one
`Error` case per condition: `NotTwoDimensional`, `NegativeValue`,
`ZeroSizeReduction`, `EmptyStack` and `ShapeMismatch`.

Dafny has no real square root. `ComputeStandardDeviationByDay` therefore
takes the square root as a parameter `sqrt: real -> real`, standing for the
library routine. The variance of each day is computed exactly. The
properties of the standard deviation are proved for every `sqrt` that
satisfies `IsSqrt`: a non-negative root whose square is its argument.

## Model

| member | source | states |
|---|---|---|
| `Models.DailyMean` | inflammation/models.py:40-47 | one mean per day: the result's length is the table's number of days |
| `Models.DailyMax` | inflammation/models.py:49-56 | one value per day; it is at least every patient's value on that day and equals one of them |
| `Models.DailyMin` | inflammation/models.py:58-65 | one value per day; it is at most every patient's value on that day and equals one of them |
| `Models.DailyMinMeanMax` | inflammation/models.py:40-65 | on every day of a non-empty table, daily min <= daily mean <= daily max |
| `Models.DailyStatsOfUniformDay` | inflammation/models.py:40-65 | a day on which all patients share the value x has mean, max and min x |
| `Models.PatientNormalise` | inflammation/models.py:67-87 | succeeds exactly when the table is rectangular, has no negative entry and has at least one day; a ragged table gives NotTwoDimensional, a negative entry NegativeValue, zero days ZeroSizeReduction, in that order; on success the shape is kept and every entry lies in [0, 1] |
| `Models.NormalisedRowMaximum` | inflammation/models.py:83-85 | dividing a non-negative row with a positive maximum by that maximum leaves every entry at most 1 and makes some entry exactly 1 |
| `Models.PatientNormaliseRows` | inflammation/models.py:83-86 | in a successful normalisation each patient's row is normalised on its own; a patient whose maximum is 0 becomes all zeros and every other patient's new maximum is exactly 1 |
| `Models.PatientNormaliseRecoversInput` | inflammation/models.py:83-85 | multiplying each normalised row by the patient's maximum gives back the original row |
| `Models.PatientNormaliseIdempotent` | inflammation/models.py:67-87 | normalising a normalised table succeeds and returns it unchanged |
| `Models.MeansByDay` | inflammation/models.py:93 | one daily-mean vector per dataset, in order |
| `Models.Stack` | inflammation/models.py:94 | stacking succeeds exactly when there is at least one vector and all have the same length; no vectors gives EmptyStack, unequal lengths ShapeMismatch |
| `Models.VarianceByDay` | inflammation/models.py:96 | one population variance per column of the stacked means, each non-negative |
| `Models.VarianceOfDailyMeans` | inflammation/models.py:89-97 | succeeds exactly when there is a dataset and all datasets have the same number of days; zero datasets give EmptyStack, differing day counts ShapeMismatch; on success one non-negative value per day |
| `Models.ComputeStandardDeviationByDay` | inflammation/models.py:89-97 | same success and error conditions as the variance; on success one value per day |
| `Models.VarianceZeroIffSameMean` | inflammation/models.py:93-96 | the variance on day d is zero exactly when every dataset has the same daily mean on day d |
| `Models.StandardDeviationProperties` | inflammation/models.py:96 | with a true square root, each day's value is a non-negative square root of that day's variance, and is zero exactly when all datasets share that day's mean |
| `Models.AnalyseData` | inflammation/models.py:99-107 | zero tables give EmptyStack rather than an empty series; otherwise the result is the standard deviation by day of the given tables |
| `Models.TwoDatasetsRegression` | tests/test_compute_data.py:8-15 | datasets [[0,2,0]] and [[0,1,0]] give variance [0, 0.25, 0] and, for any square root, standard deviation [0, 0.5, 0] |
| `Reductions.Max` | inflammation/models.py:83 | the maximum of a row is an upper bound that some entry attains |
| `Reductions.Min` | inflammation/models.py:65 | the minimum is a lower bound that some entry attains |
| `Reductions.Variance` | inflammation/models.py:96 | the population variance (mean squared deviation, divisor N) is non-negative |
| `Reductions.MeanBetweenMinAndMax` | inflammation/models.py:47 | the mean lies between the minimum and the maximum |
| `Reductions.VarianceZeroIffConstant` | inflammation/models.py:96 | the population variance is zero exactly when all entries are equal |

## Left out

- `load_csv` and `load_json` (inflammation/models.py:13-38): file I/O and library parsers whose code is not part of this model. The tables are given as values.
- `CSVDataSource`, `JSONDataSource` and `main` (inflammation-analysis.py): directory globbing, command-line parsing and plotting. `AnalyseData` takes the loaded tables directly, so the "no files found" error of the data sources is not modelled.
- IEEE-754 behaviour: NaN inputs, `np.nanmax` skipping NaNs, infinities from division by zero and rounding. Over exact reals the only undefined entry is 0/0, in a row whose maximum is 0, and it is modelled as 0.
- The `isinstance` type check of `patient_normalise` (inflammation/models.py:77-78): Dafny's types rule out non-array input.
- `PatientNormalise`: an empty table is read as a 0 x 0 array and reported as `ZeroSizeReduction`, as for any table with zero days. A 1-D empty array (`np.array([])`) would be rejected as not 2-D instead; an empty sequence of rows cannot tell the two apart.
- `DailyMean`, `DailyMax`, `DailyMin`: require at least one patient and a rectangular table. numpy yields NaN for the mean of zero rows, raises for max and min of zero rows, and raises for ragged input.
- `VarianceOfDailyMeans`, `ComputeStandardDeviationByDay`, `AnalyseData`: require every dataset to have at least one patient and be rectangular, for the same reason; the error paths modelled are those of the stacking step.
- `ComputeStandardDeviationByDay`: the square root is a parameter, as Dafny has no real square root. Its properties are proved only for a `sqrt` that satisfies `IsSqrt`, in `StandardDeviationProperties` and `TwoDatasetsRegression`.
