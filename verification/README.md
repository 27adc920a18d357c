# Wildfire MCE scoring, modelled in Dafny

This project models the scoring stage of the wildfire vulnerability
workflow (`Wildfire_Arcpy.py`). The stage is the part of the script that
turns each fire-affected census tract's raw attributes into a multi-criteria
evaluation (MCE) index. It has four steps:

1. Five criteria are standardised as z-scores against the run's mean and
   standard deviation. The criteria are median age, median income, mean burn
   severity, road count and fire-station count.
2. Each z-score is classified into one of seven ordinal levels
   (0.1, 0.2, 0.3, 0.5, 0.7, 0.85, 1) by the breakpoints -1.5, -1, -0.5, 0.5,
   1 and 1.5. Every bucket is closed on its upper bound. Age and burn severity
   use the levels in ascending order; income, roads and fire stations use them
   in descending order.
3. The tract's mean squared distance to the nearest hospital is min-max
   scaled against the run's minimum and maximum. This value is the zonal mean,
   over the tract, of the squared Euclidean-distance raster.
4. The six scaled scores are combined with the fixed weights 0.05, 0.1, 0.4,
   0.15, 0.2 and 0.1.

All numbers are exact reals. A division by zero, which aborts the Python
run, is modelled as an error result.

The modules follow the steps:

- `Statistics`: sums, sums of squares, means and extremes of a column.
- `Standardize`: z-score and min-max ratio.
- `Classification`: one breakpoint table, a first-match bucket lookup and a
  direction. The script's two literal if/elif chains are kept as
  `AscendingChain` and `DescendingChain`, and proved equal to it.
- `Composite`: the weighted sum.
- `Pipeline`: one tract, and a whole run.

The script's five chains are two distinct texts. The age and burn-severity
chains are the same text, and so are the income, road and fire-station
chains. The model therefore has one function per text.

The model follows the code, which differs from what a reader might expect:

- The weights are literals in the MCE expression. Nothing validates them;
  `Composite.SourceWeightsConvex` proves that they sum to one.
- The index is not sorted. Tracts keep their table order.
- The index's range is [0.09, 1], not [0.1, 1]. The hospital score is a
  min-max ratio in [0, 1], not a classified level. So the tract with the
  smallest mean squared hospital distance, with every other criterion in its
  least vulnerable bucket, scores 0.09 (`Composite.SourceMceExtremes`).
- The descending table is not the ascending table applied to -z. Both tables
  close their buckets on the upper bound, so the two agree everywhere except
  at the six breakpoints (`Classification.DescendingIsNegatedAscending`).

## Model

| member | source | states |
|---|---|---|
| `Classification.Bucket` | Wildfire_Arcpy.py:475-488 | the first-match lookup: the bucket's breakpoint (if any) is at least z; with `BucketAbove` below, it is the first breakpoint that is |
| `Classification.AscendingChain` | Wildfire_Arcpy.py:473-510 | the script's ascending if/elif chain, as written; its value is one of the seven levels |
| `Classification.DescendingChain` | Wildfire_Arcpy.py:517-577 | the script's descending if/elif chain, as written; its value is one of the seven levels |
| `Classification.BucketAbove` | Wildfire_Arcpy.py:475-488 | every guard skipped before the branch that fires is false: z exceeds every breakpoint below its bucket |
| `Classification.BucketUnique` | Wildfire_Arcpy.py:475-488 | on increasing breakpoints, bucket k is exactly the half-open interval (b[k-1], b[k]]; a z inside it gets bucket k |
| `Classification.BucketMonotone` | Wildfire_Arcpy.py:475-488 | a larger z never lands in an earlier bucket |
| `Classification.Classify` | Wildfire_Arcpy.py:473-577 | every scaled score lies in [0.1, 1] |
| `Classification.ClassifyInScores` | Wildfire_Arcpy.py:473-577 | every scaled score is one of the seven levels 0.1, 0.2, 0.3, 0.5, 0.7, 0.85, 1 |
| `Classification.ClassifyBucket` | Wildfire_Arcpy.py:475-488 | the score is the level of bucket k if and only if z is above the breakpoint below k and at most the breakpoint of k |
| `Classification.ClassifyBoundaries` | Wildfire_Arcpy.py:519-532 | each breakpoint belongs to the bucket below it in both tables (e.g. -1.5 scores 0.1 ascending and 1 descending), and every z above 1.5 scores 1 ascending and 0.1 descending |
| `Classification.ClassifyMonotone` | Wildfire_Arcpy.py:473-577 | the ascending score never decreases in z and the descending score never increases |
| `Classification.MirrorInvolution` | Wildfire_Arcpy.py:519-532 | the value swap between the two tables maps the level set onto itself and undoes itself |
| `Classification.ClassifyMirror` | Wildfire_Arcpy.py:517-533 | for every z, the descending score is the swap of the ascending score |
| `Classification.MirrorSumNotConstant` | Wildfire_Arcpy.py:475-532 | the two scores of one z do not sum to a constant: 1.1 in the lowest bucket, 1.0 in the middle one |
| `Classification.BreakpointsSymmetric` | Wildfire_Arcpy.py:475-486 | the breakpoints are symmetric about 0 |
| `Classification.DescendingOffBreakpoints` | Wildfire_Arcpy.py:517-533 | off the breakpoints, the descending score of z is the ascending score of -z |
| `Classification.DescendingAtBreakpoint` | Wildfire_Arcpy.py:517-533 | at every breakpoint, the descending score of z differs from the ascending score of -z |
| `Classification.DescendingIsNegatedAscending` | Wildfire_Arcpy.py:517-533 | the descending score of z equals the ascending score of -z if and only if z is not a breakpoint |
| `Classification.AscendingChainIsClassify` | Wildfire_Arcpy.py:473-510 | the script's ascending chain (age, burn severity) equals the table lookup in the ascending direction for every z |
| `Classification.DescendingChainIsClassify` | Wildfire_Arcpy.py:517-577 | the script's descending chain (income, roads, fire stations) equals the table lookup in the descending direction for every z |
| `Statistics.Minimum` | Wildfire_Arcpy.py:275-296 | the minimum is a value of the column and at most every value |
| `Statistics.Maximum` | Wildfire_Arcpy.py:275-296 | the maximum is a value of the column and at least every value |
| `Statistics.DegenerateRange` | Wildfire_Arcpy.py:585 | the hospital range is zero, so the ratio divides by zero, if and only if every tract has the same mean squared hospital distance |
| `Standardize.ZScore` | Wildfire_Arcpy.py:461-465 | the z-score is the number of deviations that leads from the mean to the raw value: mean + z * std = v |
| `Standardize.MinMax` | Wildfire_Arcpy.py:585 | the hospital ratio is the fraction of the range that leads from the minimum to the raw value: min + r * (max - min) = v |
| `Standardize.ZScoreInverse` | Wildfire_Arcpy.py:461-465 | the z-score is the unique number of deviations that leads from the mean back to the raw value |
| `Standardize.ZScoreStrictlyIncreasing` | Wildfire_Arcpy.py:461-465 | with a positive deviation, v1 < v2 if and only if z(v1) < z(v2) |
| `Standardize.ZScoreZeroIff` | Wildfire_Arcpy.py:461-465 | the z-score is 0 if and only if the raw value is the mean |
| `Standardize.MinMaxInverse` | Wildfire_Arcpy.py:585 | the hospital ratio is the unique fraction of the range that leads from the minimum back to the raw mean squared distance |
| `Standardize.MinMaxEndpoints` | Wildfire_Arcpy.py:585 | the minimum maps to 0 and the maximum to 1 |
| `Standardize.MinMaxUnitInterval` | Wildfire_Arcpy.py:585 | on an increasing range, a value is within [min, max] if and only if its ratio is within [0, 1] |
| `Standardize.MinMaxStrictlyIncreasing` | Wildfire_Arcpy.py:585 | on an increasing range, v1 < v2 if and only if ratio(v1) < ratio(v2) |
| `Standardize.SumOfZScores` | Wildfire_Arcpy.py:459-466 | the sum of a column's z-scores, times the deviation, is the column's total deviation from the mean |
| `Standardize.ZScoresCentred` | Wildfire_Arcpy.py:459-466 | against the column's own mean, its z-scores sum to 0 |
| `Standardize.SumOfSquaredZScores` | Wildfire_Arcpy.py:459-466 | the sum of a column's squared z-scores, times the squared deviation, is the column's squared deviation from the mean |
| `Standardize.ZScoresSpread` | Wildfire_Arcpy.py:459-466 | when the squared deviations amount to m squared deviations, the squared z-scores sum to m |
| `Standardize.ZScoresUnitSpread` | Wildfire_Arcpy.py:459-466 | with the column's population standard deviation as divisor, the z-scores have mean square 1 |
| `Standardize.ZScoresUnitSampleSpread` | Wildfire_Arcpy.py:459-466 | with the column's sample standard deviation as divisor, the squared z-scores sum to n - 1 |
| `Composite.Mce` | Wildfire_Arcpy.py:605-612 | the weighted sum of the six scaled scores; under convex weights it lies between the lowest and the highest of them |
| `Composite.WeightedSumMonotone` | Wildfire_Arcpy.py:605-612 | under non-negative weights, scores that are each at most another set's give a weighted sum at most theirs |
| `Composite.WeightedSumBounded` | Wildfire_Arcpy.py:605-612 | under convex weights, scores within [lo, hi] give a weighted sum within [lo, hi] |
| `Composite.SourceWeightsConvex` | Wildfire_Arcpy.py:605-612 | the six weights are non-negative and sum to 1 |
| `Composite.MceMonotone` | Wildfire_Arcpy.py:605-612 | under non-negative weights, raising any scaled score never lowers the index |
| `Composite.MceOfUniform` | Wildfire_Arcpy.py:605-612 | with weights summing to 1, the same score c on every criterion gives index c |
| `Composite.MceBounded` | Wildfire_Arcpy.py:605-612 | convexity: under convex weights, scores within [lo, hi] give an index within [lo, hi] |
| `Composite.SourceMce` | Wildfire_Arcpy.py:603-613 | the weighted sum with the script's weights is the script's expression, term by term in its field order |
| `Composite.SourceMceRange` | Wildfire_Arcpy.py:603-613 | five classified scores in [0.1, 1] and a hospital ratio in [0, 1] give an index in [0.09, 1] |
| `Composite.SourceMceExtremes` | Wildfire_Arcpy.py:603-613 | both ends of that range are reached: 0.09 and 1 |
| `Pipeline.FirstZeroDivisor` | Wildfire_Arcpy.py:459-586 | the first criterion in the division order whose divisor is zero, with every criterion before it non-zero; none if and only if every divisor is non-zero |
| `Pipeline.DivisibleIffNoZeroDivisor` | Wildfire_Arcpy.py:459-586 | a run can divide by all its statistics if and only if every criterion's divisor (five deviations and the hospital range) is non-zero |
| `Pipeline.NoZeroDivisorIsDivisible` | Wildfire_Arcpy.py:459-586 | finding no zero divisor in the order the run divides is the same as every divisor being non-zero |
| `Pipeline.Standardized` | Wildfire_Arcpy.py:459-466 | each of the five z-scores leads from its criterion's mean, in deviations, back to its own raw field (age from median age, income from median income, and so on) |
| `Pipeline.Scale` | Wildfire_Arcpy.py:473-586 | the hospital score is the given ratio, and the five classified scores lie in [0.1, 1] |
| `Pipeline.ScaleMatchesChains` | Wildfire_Arcpy.py:473-577 | age and burn severity get the ascending chain's value of their z-score; income, roads and fire stations get the descending chain's |
| `Pipeline.ScoreZoneMatchesSource` | Wildfire_Arcpy.py:459-613 | a scored tract holds the script's values: each z-score from its own raw field, mean and deviation; each chain's score; the hospital ratio; the index as the script writes it |
| `Pipeline.ScoreZone` | Wildfire_Arcpy.py:459-613 | one tract's run: the five classified scores lie in [0.1, 1], and the hospital ratio leads from the run's minimum back to the tract's raw value |
| `Pipeline.ScoreEach` | Wildfire_Arcpy.py:459-613 | a run over a divisible table: one scored tract per tract, in table order, each scored on its own |
| `Pipeline.ScoreZones` | Wildfire_Arcpy.py:459-613 | an empty table succeeds with nothing. Otherwise the run fails if and only if some divisor is zero, naming the first in the order the script divides. A successful run scores every tract, in order, each exactly as `Pipeline.ScoreEach` does |
| `Pipeline.ZColumnIsZScores` | Wildfire_Arcpy.py:459-466 | a criterion's z-scores across a scored run are its raw column's z-scores |
| `Pipeline.ZColumnOfRun` | Wildfire_Arcpy.py:459-466 | when the means are the run's own, a criterion's z-scores across the run are its raw column's z-scores about the column's own mean, and the divisor is non-zero |
| `Pipeline.ZScoresCentredInRun` | Wildfire_Arcpy.py:459-466 | when the means are the run's own, each criterion's z-scores sum to 0 across the run |
| `Pipeline.ZScoresSpreadInRun` | Wildfire_Arcpy.py:459-466 | across the run, a criterion's squared z-scores sum to m when its squared deviations from the run's mean amount to m squared deviations, whatever convention produced the deviation |
| `Pipeline.ZScoresUnitSpreadInRun` | Wildfire_Arcpy.py:459-466 | when the means are the run's own and the deviation is the population one, each criterion's z-scores have mean square 1 across the run |
| `Pipeline.HospitalScoreOfZone` | Wildfire_Arcpy.py:583-586 | a mean squared hospital distance within the run's bounds scores in [0, 1]: 0 at the minimum, 1 at the maximum |
| `Pipeline.HospitalScoresInRun` | Wildfire_Arcpy.py:583-586 | when the bounds are the run's own, every tract's hospital score is in [0, 1]; the tracts with the smallest mean squared hospital distance score 0 and those with the largest score 1 |
| `Pipeline.HospitalExtremesInRun` | Wildfire_Arcpy.py:583-586 | when the bounds are the run's own, some tract scores 0 and some scores 1 |
| `Pipeline.MceOfZone` | Wildfire_Arcpy.py:583-613 | a tract whose mean squared hospital distance is within the run's bounds gets an index in [0.09, 1] |
| `Pipeline.MceInRun` | Wildfire_Arcpy.py:603-613 | when the hospital bounds are the run's own, every tract's index lies in [0.09, 1] |
| `Pipeline.ScaledFollowsDirection` | Wildfire_Arcpy.py:459-586 | with a positive divisor, the tract with the larger raw value never scores lower on an ascending criterion (age, burn, mean squared hospital distance) and never higher on a descending one (income, roads, fire stations) |

## Left out

- Geoprocessing before the scoring stage is not modelled: buffers, joins, the Euclidean-distance raster and its squaring (lines 137-151), zonal statistics, field renames and the `AddField` calls. These are ArcGIS calls with no logic of the script's own. The model starts from a tract's six raw attribute values.
- The statistics table and the cursor reads of its values (lines 258-442) are not modelled. The means, deviations, minimum and maximum are parameters. `Pipeline.StatisticsOf` ties the means and extremes to the tracts, where a property needs that.
- The standard deviation's convention (population or sample) is decided inside the ArcGIS `Statistics` tool, which is not part of this model. So the deviation is an arbitrary non-zero parameter. The spread of the z-scores is stated for any convention (`Pipeline.ZScoresSpreadInRun`), and as unit mean square for the population one (`Pipeline.ZScoresUnitSpreadInRun`).
- Storage precision is not modelled: the z-scores, scaled scores and index are written to single-precision `FLOAT` fields, and the script computes in double precision. With exact reals, a z-score that rounds onto a breakpoint in storage is classified by its exact value.
- Null attribute values are not modelled: Python would raise a `TypeError` on them, and the model has no null.
- Partial results are not modelled: a `ZeroDivisionError` aborts the script after earlier passes have already updated rows. `Pipeline.ScoreZones` returns only the error. The script's failure order is kept: the z-score pass divides for the first row in the order age, income, burn severity, roads, fire stations, and the hospital pass divides afterwards.
- The pass-by-pass cursor updates are not modelled. Each pass reads only the fields earlier passes wrote for the same row, so a run is modelled as scoring each tract independently.
- The `print` calls and the commented-out `Delete` of intermediate tables (line 617) are not modelled.
- `Pipeline.ScoreZoneMatchesSource`: does not model the z-score fields' single-precision rounding between the z-score pass and the classification passes, because the model works with exact reals.

