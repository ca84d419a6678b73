# Bike-sharing dashboard: the data pipeline in Dafny

The dashboard (`dashboard/dashboard.py`) is a Streamlit script over the
bike-sharing dataset. Underneath its pages is a short pipeline, and this
project models that pipeline and proves what it does:

- **Join.** `merged_df` is the inner join of the hourly table with the daily
  totals on `dteday`. The hourly count becomes `cnt_hour` and the daily count
  becomes `cnt_day`.
- **Outlier filter.** `remove_outliers` takes the numeric columns once. Then,
  column by column and in table order, it recomputes Q1 and Q3 (pandas'
  linear interpolation) on the table as it now stands. It keeps only the rows
  inside `[Q1 - 1.5 IQR, Q3 + 1.5 IQR]`.
- **Label columns.**
  - The season and weather codes get names.
  - Temperature gets four right-closed bins (`pd.cut`).
  - The hour gets a daypart (`categorize_time`).
- **Aggregates.**
  - Per-group means of `cnt_hour` (season, weather, temperature category).
  - The working-day versus other-day comparison.
  - Per-daypart totals, reordered Morning, Afternoon, Evening, Night.

Files, one module each:

| file | module | what it holds |
|---|---|---|
| `common.dfy` | `Common` | `Option` (pandas' NaN), the subsequence relation, sums |
| `records.dfy` | `Records` | the hourly, daily and joined rows; the numeric columns in table order |
| `join.dfy` | `Join` | the merge on `dteday` |
| `quantiles.dfy` | `Quantiles` | sorting, `quantile` with linear interpolation, the IQR fences |
| `outliers.dfy` | `Outliers` | one filter step, the whole pass, the `remove_outliers` loop as a method |
| `binning.dfy` | `Binning` | `pd.cut`, the temperature bins, the season and weather maps |
| `aggregate.dfy` | `Aggregate` | `groupby` means and sums, the working-day comparison, the partition lemmas |
| `dayparts.dfy` | `Dayparts` | `categorize_time`, the per-daypart totals and their order |
| `pipeline.dfy` | `Pipeline` | the script's `merged_df` as a class whose methods are the pages' updates |

Numbers are exact `real`s and counts are `int`s. A quantile position
`k (n - 1) / 4` is counted in quarter steps, so linear interpolation stays
linear arithmetic.

Three behaviours of the code that a reader might expect otherwise (the
dashboard itself promises nothing about them); the model follows the code:

- `categorize_time` has no error branch. An hour of 24 or more, or a negative
  hour, is `Night` (`Dayparts.CategorizeTime`).
- `pd.cut` is called without `include_lowest`. So a temperature of exactly 0
  gets no category; it does not fall in the "Very Cold" bin (`Binning.TempCategoryOf`).
- A second run of `remove_outliers` on its own output can remove more rows.
  The fences are recomputed on the smaller table and can tighten
  (`Outliers.SecondPassRemovesMore`).
  - On `cnt_hour` values 0, 0, 0, 0, 1, 2, 10 the first pass keeps six rows.
  - The second pass on those six rows keeps five.

## Model

| member | source | states |
|---|---|---|
| `Join.Combine` | dashboard/dashboard.py:13 | a joined row carries the hourly row's fields unchanged, and the daily total as `cnt_day` |
| `Join.RowsFor` | dashboard/dashboard.py:13 | an hourly row yields exactly its combinations with the daily rows of its date, as many rows as the daily table has rows of that date |
| `Join.Merge` | dashboard/dashboard.py:13 | the join has one row per pair of an hourly and a daily row that share a date (rows characterised by `Join.MergeMembership`) |
| `Join.MergeMembership` | dashboard/dashboard.py:13 | a row is in the join iff some hourly row and some daily row share a date and the row combines them |
| `Join.MergeDates` | dashboard/dashboard.py:13 | every joined row's date occurs in the daily table with that `cnt_day`, and its hourly part is an hourly row |
| `Join.RowsForUnique` | dashboard/dashboard.py:13 | with unique daily dates an hourly row yields at most one joined row, made from itself |
| `Join.MergeUniqueKeepsHourOrder` | dashboard/dashboard.py:13 | with unique daily dates the join is the hourly table with rows deleted, in hourly order, and no longer than it |
| `Quantiles.Insert` | dashboard/dashboard.py:24-25 | inserting into a sorted column keeps it sorted and adds exactly that value |
| `Quantiles.SortAscending` | dashboard/dashboard.py:24-25 | the ranks a quantile reads come from a sorted permutation of the column |
| `Quantiles.SortAscendingOfSorted` | dashboard/dashboard.py:24-25 | sorting a column already in order changes nothing |
| `Quantiles.Interpolate` | dashboard/dashboard.py:24-25 | linear interpolation at rank p/4 lies between the values at ranks p/4 and p/4 + 1, and equals the first at a whole rank |
| `Quantiles.InterpolateMonotone` | dashboard/dashboard.py:24-25 | a higher quantile is never smaller, so Q1 <= Q3 |
| `Quantiles.FirstQuartile` | dashboard/dashboard.py:24 | `quantile(0.25)` lies within the column's range |
| `Quantiles.ThirdQuartile` | dashboard/dashboard.py:25 | `quantile(0.75)` lies within the column's range and never below `quantile(0.25)` |
| `Quantiles.FencesOf` | dashboard/dashboard.py:24-28 | a non-empty column has fences, an empty one (NaN quartiles) has none, and lower <= Q1 <= Q3 <= upper |
| `Quantiles.SortedWithinFences` | dashboard/dashboard.py:24-29 | a sorted non-empty column has an element inside its own fences |
| `Quantiles.SomeValueWithinFences` | dashboard/dashboard.py:24-29 | every non-empty column has a value inside its own fences |
| `Outliers.ColumnValues` | dashboard/dashboard.py:24 | `df[col]` has one value per row, in row order |
| `Outliers.Keep` | dashboard/dashboard.py:29 | the boolean-mask filter keeps exactly the rows within [lower, upper], in order and unchanged |
| `Outliers.Step` | dashboard/dashboard.py:24-29 | one column's step keeps exactly the rows within that column's fences on the current table, in order; an empty table stays empty |
| `Outliers.FilterColumn` | dashboard/dashboard.py:24-29 | the loop body (quartiles, IQR, bounds, mask) computes the step |
| `Outliers.Pass` | dashboard/dashboard.py:23-29 | the loop as a function over the column list; its contract is stated by `Outliers.PassSubseq`, `Outliers.PassMembership` and `Outliers.PassKeepsSomeRow` |
| `Records.NumericColumnsComplete` | dashboard/dashboard.py:20 | the numeric columns fixed before the loop list every column of the joined table but `dteday`, each once |
| `Outliers.RemoveOutliers` | dashboard/dashboard.py:19-31 | the loop over the numeric columns fixed up front applies the steps in table order, each to the table the previous one left |
| `Outliers.PassAppend` | dashboard/dashboard.py:23-29 | running the loop over two lists of columns is running it over the first, then the second |
| `Outliers.PassSubseq` | dashboard/dashboard.py:20-31 | the filter only deletes rows: the output is an in-order subsequence of unchanged rows, no longer than the input, and empty when the input is |
| `Outliers.PassMembership` | dashboard/dashboard.py:23-29 | a row survives iff it is in the input and lies inside every column's fences, each computed on the table as it stood at that column's turn |
| `Outliers.StepKeepsInterquartileRows` | dashboard/dashboard.py:24-29 | a non-empty table has fences, and a row between its Q1 and Q3 survives that step |
| `Outliers.PassKeepsSomeRow` | dashboard/dashboard.py:23-29 | the filter never empties a non-empty table |
| `Outliers.ConstantInSubseq` | dashboard/dashboard.py:29 | deleting rows keeps a column with one value a column with one value |
| `Outliers.KeepAll` | dashboard/dashboard.py:29 | a mask that every row passes keeps the table as it is |
| `Outliers.KeepAppend` | dashboard/dashboard.py:29 | the mask works row by row: filtering a concatenation filters each part |
| `Outliers.ConstantColumnStep` | dashboard/dashboard.py:24-29 | a column with one value has Q1 = Q3 and removes no row |
| `Outliers.PassConstantColumns` | dashboard/dashboard.py:23-29 | columns with one value each remove nothing, however many |
| `Outliers.OnlyCountVaries` | dashboard/dashboard.py:19-31 | when only `cnt_hour` varies the whole pass is the `cnt_hour` step |
| `Outliers.SampleOnlyCountVaries` | dashboard/dashboard.py:19-31 | on rows differing only in `cnt_hour` the pass is the `cnt_hour` step |
| `Outliers.SecondPassRemovesMore` | dashboard/dashboard.py:19-31 | a second pass over the first pass's output can remove further rows: 7 rows give 6, then 5 |
| `Outliers.FirstPassOnSample` | dashboard/dashboard.py:19-31 | counts 0, 0, 0, 0, 1, 2, 10: the pass drops exactly the last row |
| `Outliers.FirstSampleFences` | dashboard/dashboard.py:24-28 | on those counts Q1 = 0 and Q3 = 1.5, so the fences are -2.25 and 3.75 |
| `Outliers.FirstSampleKeep` | dashboard/dashboard.py:29 | only the count 10 lies outside [-2.25, 3.75] |
| `Outliers.SecondPassOnSample` | dashboard/dashboard.py:19-31 | counts 0, 0, 0, 0, 1, 2: the pass drops exactly the last row |
| `Outliers.SecondSampleFences` | dashboard/dashboard.py:24-28 | on those counts Q1 = 0 and Q3 = 0.75, so the fences are -1.125 and 1.875 |
| `Outliers.SecondSampleKeep` | dashboard/dashboard.py:29 | only the count 2 lies outside [-1.125, 1.875] |
| `Outliers.CountStep` | dashboard/dashboard.py:24-29 | the `cnt_hour` step on a table with sorted counts uses the fences of those counts |
| `Outliers.DropLast` | dashboard/dashboard.py:29 | when only the last row fails the mask, the filter drops exactly that row |
| `Binning.Cut` | dashboard/dashboard.py:84 | a value gets a label iff it lies in (first edge, last edge], and it gets bin i's label when it lies in (edge i, edge i + 1] |
| `Binning.TempCategoryOf` | dashboard/dashboard.py:84 | (0, 0.25] is Very Cold, (0.25, 0.5] Cold, (0.5, 0.75] Warm, (0.75, 1] Hot, and <= 0 or > 1 gets no category, each an iff |
| `Binning.TempCategoryMonotone` | dashboard/dashboard.py:84 | a warmer temperature never gets a colder category |
| `Binning.MapCode` | dashboard/dashboard.py:65 | `.map` gives the mapping's name for a listed code and a missing value for any other |
| `Binning.SeasonName` | dashboard/dashboard.py:64-65 | codes 1, 2, 3, 4 are Spring, Summer, Fall, Winter, each an iff, and every other code is missing |
| `Binning.WeatherName` | dashboard/dashboard.py:68-73 | codes 1, 2, 3 are Clear/Partly Cloudy, Mist/Cloudy, Light Snow/Rain, each an iff, and every other code is missing |
| `Binning.SeasonNameInjective` | dashboard/dashboard.py:64 | no two season codes share a name |
| `Binning.WeatherNameInjective` | dashboard/dashboard.py:68-72 | no two weather codes share a name |
| `Aggregate.Values` | dashboard/dashboard.py:76 | the `cnt_hour` column of the rows, in order |
| `Aggregate.Group` | dashboard/dashboard.py:76 | a group is empty iff no row has its key |
| `Aggregate.Mean` | dashboard/dashboard.py:76 | the mean times the group size is the group's sum |
| `Aggregate.MeanBetween` | dashboard/dashboard.py:76 | the mean lies between any bounds of the values |
| `Aggregate.MeanOrMissing` | dashboard/dashboard.py:151 | the mean of an empty selection is missing (NaN); otherwise it times the size is the sum |
| `Aggregate.Keys` | dashboard/dashboard.py:76 | the key column of a grouped table |
| `Aggregate.GroupMeans` | dashboard/dashboard.py:76-80 | the grouped table has a row for exactly the keys that occur, each with its group's mean, in key order; missing keys form no group |
| `Aggregate.GroupSums` | dashboard/dashboard.py:271 | the same for sums; its keys are distinct when the key order is |
| `Aggregate.DistinctSubseq` | dashboard/dashboard.py:271 | deleting entries from a list without repeats leaves one without repeats |
| `Aggregate.CategoryMeans` | dashboard/dashboard.py:85 | grouping on the categorical gives one row per category, in order; its mean is missing iff no row has that category, and otherwise times the size is the sum |
| `Aggregate.GroupSumsTotal` | dashboard/dashboard.py:271 | the grouped sums add up to the sum over the listed keys of their groups' totals |
| `Aggregate.SumOfGroupsCons` | dashboard/dashboard.py:271 | a row adds its count to exactly the one group its key names |
| `Aggregate.SumOfGroupsCovers` | dashboard/dashboard.py:271 | when every key is listed once, the groups' totals add up to the table's total |
| `Aggregate.SumOfGroupsEmpty` | dashboard/dashboard.py:271 | an empty table has all-zero group totals |
| `Aggregate.GroupSumsPartition` | dashboard/dashboard.py:271 | the per-group sums add up to the table's total |
| `Aggregate.CompareWorkingDays` | dashboard/dashboard.py:150-154 | the working-day mean exists iff some row has `workingday` 1, and is the mean of those rows' counts; likewise the other-day mean for 0; the difference exists iff both do and is the first minus the second |
| `Aggregate.WorkingDaysPartition` | dashboard/dashboard.py:150-151 | when `workingday` is 0 or 1, the two selections' sizes and totals add up to the table's |
| `Dayparts.CategorizeTime` | dashboard/dashboard.py:257-265 | [0, 6) is Morning, [6, 12) Afternoon, [12, 18) Evening, and every other integer (negative or >= 18) Night, each an iff |
| `Dayparts.CategorizeTimeMonotone` | dashboard/dashboard.py:257-265 | from hour 0 on, a later hour never gets an earlier daypart |
| `Dayparts.DaypartGroupOrderSorted` | dashboard/dashboard.py:271 | `groupby` lists the dayparts alphabetically: Afternoon, Evening, Morning, Night |
| `Dayparts.DaypartListed` | dashboard/dashboard.py:271 | every daypart is one of the group keys |
| `Dayparts.InsertByRank` | dashboard/dashboard.py:274-277 | inserting a new daypart's row keeps the rows strictly in categorical order, adds exactly that row and its total |
| `Dayparts.SortByRank` | dashboard/dashboard.py:274-277 | the sort keeps exactly the same rows and total and orders them Morning < Afternoon < Evening < Night |
| `Dayparts.DaypartTotals` | dashboard/dashboard.py:271-277 | the daypart table is strictly in categorical order, and each row is a daypart some hour falls in, holding that daypart's total |
| `Dayparts.DaypartTotalsPartition` | dashboard/dashboard.py:268-277 | every daypart some hour falls in has a row with its total, and the rows add up to the table's total |
| `Pipeline.Zip` | dashboard/dashboard.py:76 | a label column beside `cnt_hour`, row by row |
| `Pipeline.Relabel` | dashboard/dashboard.py:65 | `.map` on a column names each row's code |
| `Pipeline.GroupByNameIsGroupByCode` | dashboard/dashboard.py:64-80 | grouping by the names a one-to-one map gives is grouping by the codes |
| `Pipeline.SeasonAverageByCode` | dashboard/dashboard.py:64-76 | each season's group holds exactly the counts of the rows with that season code |
| `Pipeline.WeatherAverageByCode` | dashboard/dashboard.py:68-80 | each weather group holds exactly the counts of the rows with that weather code |
| `Pipeline.TempCategoryColumn` | dashboard/dashboard.py:84 | `temp_category` bins each row's `temp` |
| `Pipeline.DaypartColumn` | dashboard/dashboard.py:268 | `daypart` is `categorize_time` of each row's `hr` |
| `Pipeline.Dashboard.constructor` | dashboard/dashboard.py:13 | `merged_df` starts as the join, not yet filtered, with no label columns |
| `Pipeline.Dashboard.DropOutliers` | dashboard/dashboard.py:33 | runs once: `merged_df` is replaced by the filter's output, an in-order subsequence of itself; nothing else changes; the pages require it to have run |
| `Pipeline.Dashboard.QuestionOne` | dashboard/dashboard.py:63-86 | on the filtered table, the season, weather and temperature-category columns are set, and the three averages are grouped over them |
| `Pipeline.Dashboard.QuestionTwo` | dashboard/dashboard.py:150-154 | the working-day comparison of the filtered `merged_df` |
| `Pipeline.Dashboard.Binning` | dashboard/dashboard.py:268-277 | on the filtered table, the `daypart` column is set, and the daypart totals are in categorical order and add up to the table's total |

## Left out

- Reading `hour.csv` and `day.csv` (lines 9-10) is file I/O. The tables are parameters of the `Dashboard` constructor.
- `pd.to_datetime` (line 16) is a library parser. `dteday` is an opaque string key that is only compared for equality. It is never a numeric column, before or after line 16, so the filter never reads it.
- The Streamlit interface is not modelled: sidebar, menu, titles, markdown and tables. Each page is one method of `Dashboard`; which page a run shows is the caller's choice.
- Plotting with seaborn and matplotlib is not modelled. It is foreign rendering code.
- The Pearson correlations (`scipy.stats.pearsonr`) are not modelled. They are a library call built on floating-point square roots.
- Floating-point and NaN behaviour is not modelled: numbers are exact reals. A NaN quantile or mean is written `None`, so an empty table has no fences and keeps no row. Unmapped codes form no group.
- The unused `initial_count` (line 21) is not modelled.
- The label columns are held beside `rows`, not inside each row. `QuestionOne` replaces the codes by names in its own columns, and the code columns stay available to later steps.
- Outliers.RemoveOutliers: the numeric columns are the fixed list of every joined column but `dteday`, in table order. `select_dtypes` is not modelled.
- Aggregate.GroupMeans: the key order is passed in as the sorted list of possible keys. It is not computed by sorting the keys that occur.
- Pipeline.Dashboard.QuestionOne: temperature categories are grouped as pandas does by default for a categorical key (`observed=False`). Every category gets a row, and an empty one has a missing mean.
- Join.Merge: rows for a date shared by several daily rows follow the daily table's order. The order properties are proved only for unique daily dates, as the dataset has.
- Join.Merge: the result keeps the hourly table's row order, as pandas 2.2 and later does for an inner join. Earlier pandas grouped the rows by key in order of first appearance. The two agree when each date's hourly rows are contiguous, as in `hour.csv`.
