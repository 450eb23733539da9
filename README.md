# A verified model of the regression tool's core

The program is a desktop regression tool written in C++ with FLTK. It loads a
CSV file into a named-column data frame. A wizard then guides the user
through choosing a model, its hyperparameters, and the input and target
variables. The tool fits one of several regressors (random forest, gradient
boosting, XGBoost, neural network) and shows the results as plots.

This project models the deterministic logic under the widgets and the
numerics, one Dafny module per source file:

- **Data ingestion.** `CSV` covers field splitting and trimming, the numeric
  and date recognisers, date splitting into `_year`, `_month` and `_day`
  columns, and the row and column logic of `readCSV`. `DataFrames` is the
  named-column store, a class with its invariant: unique names, equal column
  lengths, insertion order kept.
- **Tree ensembles.** `Trees` and `Growth` hold the shared tree datatype,
  `predictTree`, the sorted split scan and the stop rules.
  `RandomForests`, `GradientBoostings` and `XGBoosts` are the three model
  classes, with their sampling, pseudo-residuals, leaf values, feature
  importance and prediction. `ModelCommon` holds the naming and
  importance-share rules the models have in common.
- **Neural-network bookkeeping.** `NeuralNetworks` covers activation
  parsing, the layer architecture, weight and bias shapes, the parameter
  count and mini-batch coverage.
- **GUI state.**
  - `MainWindows` is the wizard state machine.
  - `VariableSelectors` and `HyperparameterSelectors` model the input and
    target lists and the parameter rows with their Auto toggles.
  - `PlotNavigators` is the plot cursor.
  - `PlotWidgets` and `PlotGLWindows` model plot data validation.
    `PlotGeometry` holds the geometry they derive from that data.
  - `ResultsViews` covers plot cycling and residuals.
  - `PlottingUtilities` covers the script lookup and path rewriting.
- **Shared helpers.** `Wrappers` (Option, Result), `Strings`
  (`std::to_string`) and `CharReplace` (`std::replace`).

Modelling conventions:

- Doubles are modelled as reals.
- A C++ `int` cast, truncating `/` and `%`, and `size_t` comparisons are
  written out explicitly (`Truncate`, `CDiv`, `CQuot`/`CRem`, `ToSize`).
- Randomness is an input: permutations and bootstrap draws are passed in,
  with a precondition that a permutation really is one.
- Whether a file exists is an oracle parameter. Impurity and gain scores
  are computed as in the source, on reals.
- Exceptions become `Result` values or error outcomes.

## Model

| member | source | states |
|---|---|---|
| `Strings.NatToString` | src/data/CSVReader.cpp:60 | std::to_string of a non-negative number is a non-empty string of decimal digits without a leading zero |
| `Strings.IntToString` | src/data/CSVReader.cpp:60 | std::to_string of an int is non-empty and starts with '-' exactly when the value is negative |
| `Strings.DigitsValueOfNatToString` | src/data/CSVReader.cpp:168-170 | reading the printed digits back (as std::stoi does) gives the number again |
| `Strings.NatToStringInjective` | src/data/CSVReader.cpp:58-62 | different numbers print differently |
| `Strings.NumberedNamesAt` | src/data/CSVReader.cpp:58-62 | name i of a numbered range is the prefix followed by the number first + i |
| `Strings.NumberedNamesDistinct` | src/data/CSVReader.cpp:58-62 | the names of a numbered range are pairwise different |
| `DataFrames.DataFrame.constructor` | src/data/DataFrame.h:118 | a new frame is valid, has no columns and no rows |
| `DataFrames.DataFrame.AddColumn` | src/data/DataFrame.cpp:4-24 | fails with `invalid_argument` exactly on an existing name or, on a non-empty frame, a length other than `rows`, and then changes nothing; otherwise appends the column at the end of the order, the first column fixes `rows`, and the invariant (names unique and equal to the keys, all columns of length `rows`) is kept |
| `DataFrames.TableOfAppend` | src/data/DataFrame.cpp:22-23 | storing a new name and pushing it onto the order appends one entry to the ordered table |
| `DataFrames.DataFrame.HasColumn` | src/data/DataFrame.cpp:71-73 | true exactly when the name is among the ordered names |
| `DataFrames.DataFrame.GetColumn` | src/data/DataFrame.cpp:26-32 | returns the stored column (of length `rows`) and throws `out_of_range` exactly when `HasColumn` is false |
| `DataFrames.DataFrame.GetColumnNames` | src/data/DataFrame.cpp:59-61 | the names in insertion order, each once |
| `DataFrames.DataFrame.RowCount` | src/data/DataFrame.cpp:63-65 | (also `getNumRows`, src/data/DataFrame.h:55) the length every column shares, and 0 for an empty frame |
| `DataFrames.DataFrame.ColumnCount` | src/data/DataFrame.cpp:67-69 | the size of the map equals the number of ordered names |
| `DataFrames.KeysOfDistinct` | src/data/DataFrame.cpp:67-69 | a map whose keys are exactly a duplicate-free list has as many keys as the list |
| `DataFrames.DataFrame.GetValue` | src/data/DataFrame.h:89-98 | throws `out_of_range` exactly when `col` is not below the column count or `row` is not below the row count; otherwise entry `row` of the col-th column in insertion order |
| `DataFrames.DataFrame.GetColumnIndex` | src/data/DataFrame.h:106-113 | the least i whose name is `name`, or -1 exactly when the name is absent |
| `DataFrames.DataFrame.ToMatrix` | src/data/DataFrame.cpp:34-57 | fails exactly on an empty list or an unknown name; otherwise `rows` × (number of names) with entry (r,c) = column `names[c]` at row r |
| `DataFrames.DataFrame.Subset` | src/data/DataFrame.cpp:75-88 | throws `out_of_range` exactly unless `start < end ≤ rows`; otherwise a fresh valid frame with the same column order, `end − start` rows, each column the slice `[start, end)` |
| `DataFrames.SliceColumns` | src/data/DataFrame.cpp:80-86 | adding each column's slice in order to an empty frame gives a valid frame with that order and those slices |
| `CSV.TrimIsSlice` | src/data/CSVReader.cpp:240-250 | `trim` returns a slice `s[a..b]` with only white space outside it; the result is empty or starts and ends with a non-space |
| `CSV.TrimIdempotent` | src/data/CSVReader.cpp:240-250 | trimming a trimmed field changes nothing |
| `CSV.TrimLeftFacts` | src/data/CSVReader.cpp:241-243 | the leading scan drops exactly the white space before the first non-space |
| `CSV.TrimRightFacts` | src/data/CSVReader.cpp:245-247 | the trailing scan drops exactly the white space after the last non-space |
| `CSV.Split` | src/data/CSVReader.cpp:228-238 | the character loop yields exactly the `getline` tokens (`Tokens`): one field per separator, plus the text after the last separator when non-empty; `""` gives none |
| `CSV.TokensAreFree` | src/data/CSVReader.cpp:233-235 | no token contains the delimiter |
| `CSV.JoinTokens` | src/data/CSVReader.cpp:228-238 | joining the tokens with the delimiter gives the line back, except that one trailing delimiter is lost |
| `CSV.JoinTokensFrom` | src/data/CSVReader.cpp:233-235 | the same round trip from any start position of the stream |
| `CSV.TokensOfJoin` | src/data/CSVReader.cpp:228-238 | the converse: delimiter-free tokens whose last one is non-empty split back into themselves |
| `CSV.SplitFields` | src/data/CSVReader.cpp:36-41 | a line's values are its tokens, each trimmed |
| `CSV.IsNumeric` | src/data/CSVReader.cpp:199-226 | the flag loop accepts exactly the non-empty strings made of an optional sign, then digits and at most one `.`, with at least one digit |
| `CSV.IsNumericExamples` | src/data/CSVReader.cpp:199-226 | `""`, `"+"`, `"."`, `"1e5"`, `"1.2.3"` are rejected; `"-1.5"`, `"+.5"`, `"7."` are accepted |
| `CSV.NumericValueOfNatToString` | src/data/CSVReader.cpp:105 | `stod` of the decimal text of n (with or without a minus sign) is ±n |
| `CSV.NumericValueOfDigits` | src/data/CSVReader.cpp:105 | a plain digit run is numeric and reads as its decimal value |
| `CSV.ExtractDateComponents` | src/data/CSVReader.cpp:160-193 | `(0,0,0)` whenever no date form matches; all components are non-negative otherwise |
| `CSV.IsoDateRoundTrip` | src/data/CSVReader.cpp:164-171 | `"Y-M-D"` with a four-digit year is a date and extracts to `(Y,M,D)` |
| `CSV.MonthFirstRoundTrip` | src/data/CSVReader.cpp:172-190 | `"M/D/YYYY"` and `"M-D-YYYY"` are dates read month first, giving `(Y,M,D)` |
| `CSV.GroupsOfJoined` | src/data/CSVReader.cpp:151-157 | digit groups joined by a non-digit separator are cut back into the same three groups, so a regex match is exactly such a string |
| `CSV.GroupsJoin` | src/data/CSVReader.cpp:151-157 | the three groups of a match, glued around the separators, give the string back |
| `CSV.DataRows` | src/data/CSVReader.cpp:35-50 | no kept row is blank (no values, or one empty value) and there are no more rows than lines |
| `CSV.GeneratedNamesFollowFirstRow` | src/data/CSVReader.cpp:57-70 | without a header the names are distinct, as many as the first row's fields, and any row of another width makes the read fail |
| `CSV.ReadTableShape` | src/data/CSVReader.cpp:72-116 | a table that is read has distinct names and every column as long as the number of kept rows, which is positive |
| `CSV.CSVReader.ReadCSV` | src/data/CSVReader.cpp:11-117 | an unopenable file throws `runtime_error`; otherwise the frame is exactly `ReadTable` of the header names and the body lines: no data row or a row of the wrong width throws `runtime_error`, a repeated column name throws `invalid_argument`, and the names in force are kept in the reader |
| `CSV.GenerateNames` | src/data/CSVReader.cpp:58-62 | the names are `Column1..ColumnN` for a first row of N fields |
| `CSV.AllRowsHaveWidth` | src/data/CSVReader.cpp:64-70 | true exactly when every row has `numColumns` fields |
| `CSV.ReadRows` | src/data/CSVReader.cpp:35-50 | the read loop keeps exactly `DataRows`: the trimmed values of each non-blank line, in order |
| `CSV.ProcessColumns` | src/data/CSVReader.cpp:72-114 | the frame holds every column's contribution (`Entries`) in input column order, and the loop fails exactly when two contributions share a name |
| `CSV.ProcessColumn` | src/data/CSVReader.cpp:74-113 | a date column adds its three derived columns, an all-numeric column adds its values, any other column adds nothing |
| `CSV.ProcessDateColumn` | src/data/CSVReader.cpp:119-147 | adds `name_year`, `name_month`, `name_day` in that order, entry i holding the components of row i's date |
| `CSV.DetectDateColumn` | src/data/CSVReader.cpp:75-84 | true exactly when one of the first min(rows,5) values has a date form |
| `CSV.AllNumeric` | src/data/CSVReader.cpp:90-97 | true exactly when every value of the column passes `isNumeric` |
| `CSV.NumericColumn` | src/data/CSVReader.cpp:101-106 | entry i is the `stod` value of row i's field |
| `CSV.LaterColumnsKeepDuplicate` | src/data/CSVReader.cpp:107 | once two contributed columns share a name, every longer prefix of the table does too, so the read fails |
| `Trees.PredictTree` | src/models/RandomForest.cpp:322-337 | the traversal ends on one of the tree's leaf outputs (or on 0 at a null child) |
| `Trees.PredictionIsRegionValue` | src/models/RandomForest.cpp:322-337 | every input satisfies all the tests of some root-to-leaf path, and the prediction is that path's leaf output |
| `Trees.RegionsDisjoint` | src/models/RandomForest.cpp:332-336 | no input satisfies the tests of two different root-to-leaf paths, since each split sends `<=` left and `>` right |
| `Trees.SumBetween` | src/models/RandomForest.cpp:314-317 | a sum of n values each in [lo, hi] lies in [n·lo, n·hi] |
| `Trees.MeanBetween` | src/models/RandomForest.cpp:309-320 | the mean of a non-empty index list lies between any bounds of its values |
| `Trees.VarianceNonNegative` | src/models/RandomForest.cpp:288-307 | the variance is never negative |
| `Trees.CalculateMean` | src/models/RandomForest.cpp:309-320 | the summing loop computes the mean, 0 for an empty list |
| `Trees.CalculateVariance` | src/models/RandomForest.cpp:288-307 | the two loops compute the mean squared deviation from the mean, 0 for an empty list |
| `Trees.SortPairsFacts` | src/models/RandomForest.cpp:228 | sorting the (value, index) pairs yields an ordered permutation of them |
| `Trees.SortedArrangementUnique` | src/models/RandomForest.cpp:228 | two lexicographically sorted permutations of the same pairs are equal, so the sort's result does not depend on the algorithm |
| `Trees.SortedByFeatureFrom` | src/models/RandomForest.cpp:223-228 | the sorted list is ordered and holds exactly one pair (value of the feature, sample) per sample |
| `Trees.CollectPairs` | src/models/RandomForest.cpp:223-226 | the loop collects the (feature value, sample) pairs in sample order |
| `Trees.CandidateCut` | src/models/RandomForest.cpp:233-246 | at a value change after position j the midpoint lies strictly between the two values, the left side has j+1 samples (all values at most P[j]) and the right side the rest (all at least P[j+1]), together the node's samples |
| `Trees.CandidateBestCut` | src/models/RandomForest.cpp:266-283 | what a candidate records is a partition of the node's samples into non-empty sides of at least minSamplesLeaf, strictly below and above the split value, scored by the variance reduction |
| `Trees.PartitionAt` | src/models/RandomForest.cpp:239-246 | the loop puts every pair with value at most the cut value on the left and the others on the right, in sorted order |
| `Trees.ScanPosition` | src/models/RandomForest.cpp:231-284 | one position: it is taken exactly when it is a candidate cut scoring above the best so far (or there is none yet), and then it becomes the best; the result is `PositionStep` |
| `Trees.ScanFeature` | src/models/RandomForest.cpp:231-285 | over all positions of one feature: the best stays "none" exactly when there is no candidate, never gets worse, ends at least every candidate's score, and equals `ScanPositions` folded over the positions |
| `Trees.ScoreFeature` | src/models/RandomForest.cpp:221-285 | the same, for one feature's sorted samples |
| `Trees.ScanFeatures` | src/models/RandomForest.cpp:221-285 | over the features considered: no split exactly when no feature has a candidate cut, otherwise the recorded best is a candidate of some considered feature and scores at least as high as every candidate cut of every considered feature; the result is `BestCut`, the first highest-scoring candidate in visiting order |
| `Trees.FindBestSplit` | src/models/RandomForest.cpp:198-286 | feature −1 (split 0, decrease 0, empty sides) exactly when no considered feature has a cut; otherwise a considered feature, a partition of the samples into sides of at least minSamplesLeaf strictly below and above the split value, and an impurity decrease equal to the score, at least that of every other cut; the whole result is `BestCut` of the samples and features, ties going to the first cut found |
| `Trees.ScanPositionsFacts` | src/models/RandomForest.cpp:231-284 | after the first i positions of one feature, the best so far has no feature exactly when it started with none and no position was a candidate (and is then unchanged), never scores below where it started, and scores at least every candidate seen |
| `Trees.ScanCutsFacts` | src/models/RandomForest.cpp:221-285 | after the first k features, the best so far is NoSplit exactly when none of them has a candidate cut, and otherwise scores at least every candidate cut of those features |
| `Growth.PartitionSide` | src/models/RandomForest.cpp:239-246 | a sample of a split node lies on the left child exactly when its value is at most the threshold |
| `Growth.DepthBound` | src/models/RandomForest.cpp:132-139 | the depth stop rule bounds every grown tree: no path below depth d has more than maxDepth − d splits |
| `Growth.TrainingSampleRoutes` | src/models/RandomForest.cpp:121-196 | a training sample of a grown tree is routed to a leaf whose samples include it, and the tree predicts the mean target of that leaf's samples |
| `Growth.LeavesPartition` | src/models/RandomForest.cpp:192-193 | the leaves' samples are, as a multiset, exactly the samples the tree was grown from |
| `Growth.GainOfSplit` | src/models/RandomForest.cpp:189-193 | adding size × decrease for the split's feature and then the two subtrees' contributions gives the whole subtree's importance contribution |
| `Growth.GainWithoutSplits` | src/models/RandomForest.cpp:189 | a tree that never splits on a feature adds nothing to its importance |
| `Growth.OutputsBetween` | src/models/RandomForest.cpp:137 | every leaf of a grown tree holds a value between the least and greatest target of its samples |
| `Growth.TreeSumBetween` | src/models/RandomForest.cpp:365-369 | if each tree predicts within [lo, hi], the sum of k trees lies within [k·lo, k·hi] |
| `Growth.OutputBetween` | src/models/RandomForest.cpp:322-337 | a prediction lies within any bounds of the tree's leaf outputs |
| `ModelCommon.Iota` | src/models/RandomForest.cpp:86 | `std::iota` over n slots yields 0, 1, …, n−1 |
| `ModelCommon.Truncate` | src/models/GradientBoosting.cpp:85 | `static_cast<int>` of a double truncates toward zero: within 1 below a non-negative value and within 1 above a negative one |
| `ModelCommon.ToSize` | src/models/XGBoost.cpp:142 | converting an int to `size_t` keeps non-negative values and turns negative ones into huge values |
| `ModelCommon.InputNames` | src/models/RandomForest.cpp:42-61 | the stored input names: the given list when it has one name per feature, otherwise one generated name per feature |
| `ModelCommon.InputNamesNumbered` | src/models/RandomForest.cpp:45-47 | the generated names are `Variable_1` … `Variable_n` and pairwise different |
| `ModelCommon.TargetName` | src/models/RandomForest.cpp:64 | the stored target name is never empty: the given name, or `Target` in place of an empty one |
| `ModelCommon.ImportanceKeys` | src/models/RandomForest.cpp:416-419 | the importance map has exactly the input names as keys |
| `ModelCommon.ImportanceOfName` | src/models/RandomForest.cpp:436-450 | with distinct names, feature i's entry is its total over the grand total when that is positive, 1/nFeatures otherwise, and 0 for a name past nFeatures |
| `ModelCommon.SharesSumToOne` | src/models/RandomForest.cpp:430-450 | the normalised shares of at least one feature add up to 1 in both branches |
| `ModelCommon.SharesNonNegative` | src/models/RandomForest.cpp:436-441 | shares are never negative when no total is |
| `ModelCommon.CalculateFeatureImportance` | src/models/RandomForest.cpp:414-451 | the loops compute the map of `ImportanceScores` over the per-feature totals of the trees' vectors (the same code is src/models/GradientBoosting.cpp:424-461) |
| `ModelCommon.AddVector` | src/models/RandomForest.cpp:425-427 | the inner loop adds one tree's vector to the running totals element by element |
| `ModelCommon.SharesOf` | src/models/RandomForest.cpp:430-450 | the normalising loops produce each feature's share |
| `ModelCommon.AssignShares` | src/models/RandomForest.cpp:437-441 | the writing loop stores share i under name i for each i in turn |
| `RandomForests.ISqrt` | src/models/RandomForest.cpp:342 | `static_cast<int>(std::sqrt(n))` is the integer square root r with r² ≤ n < (r+1)² |
| `RandomForests.ILog2` | src/models/RandomForest.cpp:344 | `static_cast<int>(std::log2(n))` is the r with 2^r ≤ n < 2^(r+1) |
| `RandomForests.NumFeaturesToConsider` | src/models/RandomForest.cpp:339-351 | `all` gives nFeatures; `log2` the integer base-2 logarithm; `auto`, `sqrt` and every other string the integer square root; never below 1 and, for at least one feature, never above nFeatures |
| `RandomForests.AccumulateAsWritten` | src/models/RandomForest.cpp:189 | the importance update as written: the double sum is truncated back into the `int` vector |
| `RandomForests.SmallGainsVanish` | src/models/RandomForest.cpp:189 | as written, a split whose sample count times decrease is below 1 adds nothing |
| `RandomForests.TruncationLosesTheOnlySplit` | src/models/RandomForest.cpp:189 | on two samples with targets 0 and 1 the only split decreases the variance by 0.25, and its weighted gain 2 × 0.25 = 0.5 truncates to 0, so both features get the 1/2 fallback instead of 1 and 0 |
| `RandomForests.ForestPredictionBetween` | src/models/RandomForest.cpp:353-375 | when every target lies in [lo, hi], the averaged prediction of grown trees for any input lies in [lo, hi] |
| `RandomForests.FittedPredictionsBetween` | src/models/RandomForest.cpp:353-375 | the same for a fitted forest with at least one tree and its training targets |
| `RandomForests.TreesPredictBetween` | src/models/RandomForest.cpp:353-369 | each grown tree predicts within the bounds of the training targets |
| `RandomForests.TreePredictionBetween` | src/models/RandomForest.cpp:322-337 | one grown tree predicts within any bounds of the targets of the samples it was grown from (only those samples' targets need lie within the bounds) |
| `RandomForests.RandomForest.constructor` | src/models/RandomForest.cpp:9-15 | the defaults: 100 trees, depth 10, split 2, leaf 1, `auto` features, bootstrap; not fitted, no trees |
| `RandomForests.RandomForest.WithParameters` | src/models/RandomForest.cpp:17-25 | stores the given hyperparameters; not fitted, no trees |
| `RandomForests.RandomForest.SampleIndices` | src/models/RandomForest.cpp:75-87 | with bootstrap, nSamples draws from 0..nSamples−1 in order; without, 0..nSamples−1 |
| `RandomForests.RandomForest.BuildTree` | src/models/RandomForest.cpp:121-196 | the tree is grown by the rules: a leaf holding the mean target exactly when a stop rule holds, there are no samples, the variance is below the floor where the model checks it, or `BestCut` over the features picked for the node has no feature or a side that is empty or below minSamplesLeaf; otherwise a split on exactly that cut's feature, split value and two sides (floor 1e-6; numFeaturesToConsider distinct random features per node, recorded in the layout); every split tests a real feature, and each feature's importance grows by the tree's gain for it (size × decrease summed over its splits) |
| `RandomForests.RandomForest.MakeLeaf` | src/models/RandomForest.cpp:132-149 | given one of buildTree's reasons for a leaf, a leaf holding the mean target of the samples, which is a grown tree |
| `RandomForests.RandomForest.ChooseFeatures` | src/models/RandomForest.cpp:152-160 | distinct features below nFeatures, numFeaturesToConsider of them (all nFeatures when there are fewer), and they are exactly that many leading entries of the engine's shuffle of 0..nFeatures-1 |
| `RandomForests.RandomForest.GrowTrees` | src/models/RandomForest.cpp:73-98 | nEstimators trees (none when it is not positive), each grown by the rules: a leaf holding the mean target exactly when a stop rule holds, there are no samples, the variance is below the floor where the model checks it, or `BestCut` over the features picked for the node has no feature or a side that is empty or below minSamplesLeaf; otherwise a split on exactly that cut's feature, split value and two sides, from its own sample list |
| `RandomForests.RandomForest.Train` | src/models/RandomForest.cpp:73-101 | the trees are each grown by the rules: a leaf holding the mean target exactly when a stop rule holds, there are no samples, the variance is below the floor where the model checks it, or `BestCut` over the features picked for the node has no feature or a side that is empty or below minSamplesLeaf; otherwise a split on exactly that cut's feature, split value and two sides, and the importance map is the normalised per-feature totals |
| `RandomForests.RandomForest.Fit` | src/models/RandomForest.cpp:27-119 | false with nothing changed exactly when X and y differ in rows; otherwise the shape, names and target recorded, nEstimators trees each grown by the rules: a leaf holding the mean target exactly when a stop rule holds, there are no samples, the variance is below the floor where the model checks it, or `BestCut` over the features picked for the node has no feature or a side that is empty or below minSamplesLeaf; otherwise a split on exactly that cut's feature, split value and two sides (the forest's rules recorded), the importance map computed, fitted |
| `RandomForests.RandomForest.SetShape` | src/models/RandomForest.cpp:38-39 | records nSamples and nFeatures, hyperparameters unchanged |
| `RandomForests.RandomForest.Record` | src/models/RandomForest.cpp:60-113 | records names, target, trees and importance map and marks the forest fitted, hyperparameters unchanged |
| `RandomForests.RandomForest.RecordTrees` | src/models/RandomForest.cpp:97 | records the trees, hyperparameters and shape unchanged |
| `RandomForests.RandomForest.SumPredictions` | src/models/RandomForest.cpp:365-372 | for every row, the sum of the trees' predictions |
| `RandomForests.RandomForest.AddTree` | src/models/RandomForest.cpp:369-371 | adds one tree's prediction to each row's running sum |
| `RandomForests.RandomForest.Predict` | src/models/RandomForest.cpp:353-375 | `runtime_error` before fit, `invalid_argument` on a column-count mismatch, otherwise per row the trees' summed prediction over nEstimators |
| `RandomForests.RandomForest.GetFeatureImportance` | src/models/RandomForest.cpp:453-459 | `runtime_error` before fit, the stored map after |
| `RandomForests.RandomForest.Parameters` | src/models/RandomForest.cpp:381-390 | exactly the five keys, with the values as doubles and bootstrap as 1 or 0 |
| `RandomForests.RandomForest.Description` | src/models/RandomForest.cpp:402-404 | the description names the tree count |
| `GradientBoostings.PseudoResidual` | src/models/GradientBoosting.cpp:298-329 | the negative gradient points from the prediction toward the target (positive exactly when y > f, negative exactly when y < f); it is the sign for `absolute_error`, the difference clipped to [−1, 1] for `huber`, and y − f for `squared_error` and every unknown loss name |
| `GradientBoostings.Residuals` | src/models/GradientBoosting.cpp:298-329 | one pseudo-residual per sample |
| `GradientBoostings.BoundedResiduals` | src/models/GradientBoosting.cpp:304-324 | absolute-error and Huber residuals never leave [−1, 1] |
| `GradientBoostings.CalculatePseudoResiduals` | src/models/GradientBoosting.cpp:298-329 | the loops compute the pseudo-residual of every sample |
| `GradientBoostings.ShiftedSum` | src/models/GradientBoosting.cpp:71-79 | the squared-error residuals of the first k samples around a constant c sum to their targets' sum minus k·c |
| `GradientBoostings.CenteredResiduals` | src/models/GradientBoosting.cpp:71-79 | starting from the target mean, the first round's squared-error residuals sum to zero |
| `GradientBoostings.SubsampleSize` | src/models/GradientBoosting.cpp:84-93 | all n samples for a subsample of at least 1, otherwise `static_cast<int>(n * subsample)`, never above n |
| `GradientBoostings.BoostedIsScaledSum` | src/models/GradientBoosting.cpp:359-367 | adding learningRate times each tree's prediction to the initial one equals adding learningRate times the trees' summed prediction once |
| `GradientBoostings.Fitted` | src/models/GradientBoosting.cpp:348-370 | one prediction per row |
| `GradientBoostings.BoundedStep` | src/models/GradientBoosting.cpp:96-103 | with absolute-error or Huber loss each added tree moves any prediction by at most the absolute learning rate |
| `GradientBoostings.LeafOutputsBetween` | src/models/GradientBoosting.cpp:140 | leaves grown on residuals within [lo, hi] (lo ≤ 0 ≤ hi) hold values within [lo, hi] |
| `GradientBoostings.BoostedAppend` | src/models/GradientBoosting.cpp:363-367 | one more tree adds learningRate times its prediction |
| `GradientBoostings.FittedAppend` | src/models/GradientBoosting.cpp:101-106 | the running predictions after a round equal the ensemble's predictions with the new tree appended |
| `GradientBoostings.BoostStep` | src/models/GradientBoosting.cpp:77-107 | a round keeps the invariant: every tree was grown by the rules: a leaf holding the mean target exactly when a stop rule holds, there are no samples, the variance is below the floor where the model checks it, or `BestCut` over the features picked for the node has no feature or a side that is empty or below minSamplesLeaf; otherwise a split on exactly that cut's feature, split value and two sides, on the residuals of its predecessors' predictions, and F is the ensemble's prediction |
| `GradientBoostings.GradientBoosting.constructor` | src/models/GradientBoosting.cpp:8-12 | the defaults 0.1, 100, 3, 2, 1, 1.0, `squared_error`; not fitted, no trees |
| `GradientBoostings.GradientBoosting.WithParameters` | src/models/GradientBoosting.cpp:14-21 | stores the seven hyperparameters; not fitted, no trees |
| `GradientBoostings.GradientBoosting.SubsampleIndices` | src/models/GradientBoosting.cpp:81-94 | SubsampleSize distinct samples: a shuffle's prefix when subsample < 1, otherwise 0..n−1 |
| `GradientBoostings.GradientBoosting.BuildTree` | src/models/GradientBoosting.cpp:124-178 | the tree is grown by the rules: a leaf holding the mean target exactly when a stop rule holds, there are no samples, the variance is below the floor where the model checks it, or `BestCut` over the features picked for the node has no feature or a side that is empty or below minSamplesLeaf; otherwise a split on exactly that cut's feature, split value and two sides (no variance floor; every feature 0..nFeatures−1 in order at each node), computed on the residuals; it tests only real features, and each feature's importance grows by its gain |
| `GradientBoostings.GradientBoosting.MakeLeaf` | src/models/GradientBoosting.cpp:139-141 | given one of buildTree's reasons for a leaf, a leaf holding the mean residual of the samples, which is a grown tree |
| `GradientBoostings.GradientBoosting.AddScaledTree` | src/models/GradientBoosting.cpp:101-103 | each running prediction grows by learningRate times the tree's prediction |
| `GradientBoostings.GradientBoosting.Boost` | src/models/GradientBoosting.cpp:74-107 | nEstimators rounds, every tree grown by the rules: a leaf holding the mean target exactly when a stop rule holds, there are no samples, the variance is below the floor where the model checks it, or `BestCut` over the features picked for the node has no feature or a side that is empty or below minSamplesLeaf; otherwise a split on exactly that cut's feature, split value and two sides, on the residuals of its predecessors; F equals the ensemble's predictions for the training rows |
| `GradientBoostings.GradientBoosting.Round` | src/models/GradientBoosting.cpp:78-103 | one round: a tree grown by the rules: a leaf holding the mean target exactly when a stop rule holds, there are no samples, the variance is below the floor where the model checks it, or `BestCut` over the features picked for the node has no feature or a side that is empty or below minSamplesLeaf; otherwise a split on exactly that cut's feature, split value and two sides, on the given residuals from a subsample, and F moved by it |
| `GradientBoostings.GradientBoosting.FitAsWritten` | src/models/GradientBoosting.cpp:23-122 | fit as written: it succeeds exactly when X and y agree in rows and the model was already fitted; on a fresh model it returns false, leaves the model unfitted and keeps the old importance map |
| `GradientBoostings.GradientBoosting.Fit` | src/models/GradientBoosting.cpp:23-122 | fit as intended: false with nothing changed exactly when X and y differ in rows; otherwise names, target, the target mean as initial prediction, nEstimators boosted trees each grown by the rules: a leaf holding the mean target exactly when a stop rule holds, there are no samples, the variance is below the floor where the model checks it, or `BestCut` over the features picked for the node has no feature or a side that is empty or below minSamplesLeaf; otherwise a split on exactly that cut's feature, split value and two sides, on the residuals of its predecessors, the importance map, fitted |
| `GradientBoostings.GradientBoosting.Train` | src/models/GradientBoosting.cpp:71-114 | the target mean, the boosted trees (each grown by the rules: a leaf holding the mean target exactly when a stop rule holds, there are no samples, the variance is below the floor where the model checks it, or `BestCut` over the features picked for the node has no feature or a side that is empty or below minSamplesLeaf; otherwise a split on exactly that cut's feature, split value and two sides) and their importance map |
| `GradientBoostings.GradientBoosting.SetShape` | src/models/GradientBoosting.cpp:34-35 | records nSamples and nFeatures, hyperparameters unchanged |
| `GradientBoostings.GradientBoosting.RecordModel` | src/models/GradientBoosting.cpp:60-106 | records names, target, initial prediction and trees |
| `GradientBoostings.GradientBoosting.MarkFitted` | src/models/GradientBoosting.cpp:114-116 | records the importance map and marks the model fitted |
| `GradientBoostings.GradientBoosting.Predict` | src/models/GradientBoosting.cpp:348-370 | `runtime_error` before fit, `invalid_argument` on a column mismatch, otherwise per row the initial prediction plus learningRate times each tree's prediction |
| `GradientBoostings.GradientBoosting.GetFeatureImportance` | src/models/GradientBoosting.cpp:463-469 | `runtime_error` before fit, the stored map after |
| `GradientBoostings.GradientBoosting.Parameters` | src/models/GradientBoosting.cpp:376-386 | exactly the six keys (the loss is not reported), with the values as doubles |
| `GradientBoostings.GradientBoosting.Description` | src/models/GradientBoosting.cpp:398-414 | the description names the tree count and the loss in words |
| `GradientBoostings.LossName` | src/models/GradientBoosting.cpp:399-410 | the three known losses are put in words, any other name is used as is |
| `XGBoosts.Gradients` | src/models/XGBoost.cpp:78 | one gradient per sample |
| `XGBoosts.LeafValueBetween` | src/models/XGBoost.cpp:287-302 | the Newton step of gradients in [lo, hi] (lo ≤ 0 ≤ hi) lies in [−hi, −lo], since the hessian sum plus 1e-6 exceeds the sample count |
| `XGBoosts.NodeSums` | src/models/XGBoost.cpp:292-298 | the loop sums the samples' gradients, and the hessians (all 1) sum to the sample count |
| `XGBoosts.CalculateLeafValue` | src/models/XGBoost.cpp:287-302 | the loop computes the Newton step −ΣG / (ΣH + 1e-6) |
| `XGBoosts.Kept` | src/models/XGBoost.cpp:85-93 | the sample size: n for a fraction of at least 1, never above n, not negative for a fraction in [0, 1), negative only for a negative fraction |
| `XGBoosts.KeptIsTruncatedProduct` | src/models/XGBoost.cpp:86 | the size is `static_cast<int>(n * fraction)` |
| `XGBoosts.SampleIndices` | src/models/XGBoost.cpp:84-100 | succeeds exactly when the size is not negative (a negative `resize` throws); then the first size entries of a shuffle of 0..n−1, or 0..n−1 for a fraction of at least 1 |
| `XGBoosts.BestSplitFacts` | src/models/XGBoost.cpp:198-285 | the reported gain bounds every admissible cut's gain over the considered features; feature −1 exactly when no cut gains more than −1; otherwise an admissible cut of a considered feature, split at a midpoint, with the samples at most the split on the left and the rest on the right |
| `XGBoosts.XFindBestSplit` | src/models/XGBoost.cpp:198-285 | the loops compute `BestSplit`, with running prefix sums of gradients and hessians |
| `XGBoosts.Divide` | src/models/XGBoost.cpp:275-281 | every sample goes left when its value is at most the split and right otherwise, in sample order |
| `XGBoosts.XDepthBound` | src/models/XGBoost.cpp:142 | no grown tree goes deeper than maxDepth |
| `XGBoosts.XFeaturesBelow` | src/models/XGBoost.cpp:148-168 | every split of a grown tree tests one of the columns |
| `XGBoosts.XLeavesPartition` | src/models/XGBoost.cpp:192-193 | the leaves' samples are exactly the node's samples, as a multiset |
| `XGBoosts.XTrainingSampleRoutes` | src/models/XGBoost.cpp:131-196 | a training sample is routed to a leaf whose samples include it, and the tree predicts that leaf's Newton step |
| `XGBoosts.XOutputsBetween` | src/models/XGBoost.cpp:144 | with gradients in [lo, hi], every leaf holds a value in [−hi, −lo] |
| `XGBoosts.CountsTotal` | src/models/XGBoost.cpp:419-423 | the per-feature split counts add up to the number of split nodes |
| `XGBoosts.CountFeatures` | src/models/XGBoost.cpp:400-412 | the recursive walk adds to each feature's count the number of splits on it |
| `XGBoosts.XCalculateFeatureImportance` | src/models/XGBoost.cpp:386-442 | the map of shares of the split counts, 1/n each without splits |
| `XGBoosts.SplitImportance` | src/models/XGBoost.cpp:425-441 | the keys are the input names; with distinct names, name i holds its count over all splits (1/n each without splits), and the shares add up to 1 |
| `XGBoosts.XGBoost.constructor` | src/models/XGBoost.cpp:8-12 | the defaults 0.1, 6, 100, 1.0, 1.0, 1, 0.0; not fitted, no trees |
| `XGBoosts.XGBoost.WithParameters` | src/models/XGBoost.cpp:14-21 | stores the seven hyperparameters; not fitted, no trees |
| `XGBoosts.XGBoost.BuildTree` | src/models/XGBoost.cpp:131-196 | fails exactly when a column sample is needed and its size is negative; otherwise the tree is grown by the stop rule, the gamma threshold and the best split, and tests only real columns |
| `XGBoosts.XGBoost.AddScaledTree` | src/models/XGBoost.cpp:108-113 | each running prediction grows by learningRate times the tree's prediction |
| `XGBoosts.XGBoost.Round` | src/models/XGBoost.cpp:77-113 | one round: a tree grown on the gradients F − y from a row sample, and F moved by it; fails exactly when a sample size is negative |
| `XGBoosts.XGBoost.Boost` | src/models/XGBoost.cpp:76-114 | nEstimators rounds; fails exactly when a round throws, and then keeps no tree; otherwise every tree is boosted on the gradients of its predecessors, and F equals the ensemble's predictions |
| `XGBoosts.XGBoost.Fit` | src/models/XGBoost.cpp:23-129 | false with nothing changed when X and y differ in rows; false with no trees and the fitted flag kept when a sample size throws; otherwise boosted trees, the split-count importance map, fitted |
| `XGBoosts.XGBoost.Begin` | src/models/XGBoost.cpp:34-70 | records shape, names, target and initial prediction and clears the trees |
| `XGBoosts.XGBoost.Finish` | src/models/XGBoost.cpp:105-123 | records trees and importance map and marks the model fitted |
| `XGBoosts.XGBoost.PredictAllTrees` | src/models/XGBoost.cpp:321-331 | per row, the initial prediction plus learningRate times each tree's prediction |
| `XGBoosts.XGBoost.Predict` | src/models/XGBoost.cpp:333-345 | `runtime_error` before fit, `invalid_argument` on a column mismatch, otherwise `predictAllTrees` |
| `XGBoosts.XGBoost.GetFeatureImportance` | src/models/XGBoost.cpp:444-450 | `runtime_error` before fit, the stored map after |
| `XGBoosts.XGBoost.Parameters` | src/models/XGBoost.cpp:351-362 | exactly the seven keys, with the values as doubles |
| `NeuralNetworks.Code` | src/models/NeuralNetwork.cpp:433-434 | `static_cast<double>` of an activation is its position in the enum, 0 to 3 |
| `NeuralNetworks.CodeInjective` | src/models/NeuralNetwork.cpp:433-434 | different activations report different codes |
| `NeuralNetworks.ParseActivation` | src/models/NeuralNetwork.cpp:44-57 | `sigmoid`, `tanh` and `identity` select SIGMOID, TANH and LINEAR, each exactly for its name; `relu` and every other string select RELU |
| `NeuralNetworks.ParseActivationName` | src/models/NeuralNetwork.cpp:44-57 | every activation can be chosen by its name |
| `NeuralNetworks.DisplayNameInjective` | src/models/NeuralNetwork.cpp:472-486 | the names getDescription prints for the four activations are pairwise different |
| `NeuralNetworks.HiddenListSnoc` | src/models/NeuralNetwork.cpp:464-469 | one more hidden layer appends its phrase "<size> neurons in hidden layer <k+1>", after ", " unless it is the first |
| `NeuralNetworks.DefaultHiddenList` | src/models/NeuralNetwork.cpp:464-469 | the default single hidden layer of 10 units reads "10 neurons in hidden layer 1" |
| `NeuralNetworks.JoinHiddenLayers` | src/models/NeuralNetwork.cpp:464-469 | the loop over the hidden layers produces exactly their phrases separated by ", ", with none after the last |
| `NeuralNetworks.DescriptionTailInjective` | src/models/NeuralNetwork.cpp:470-489 | the text after the hidden layers is the same for two networks exactly when both their hidden and their output activations agree |
| `NeuralNetworks.Architecture` | src/models/NeuralNetwork.cpp:112-117 | nFeatures, then the hidden layer sizes in order, then 1 |
| `NeuralNetworks.InitLayers` | src/models/NeuralNetwork.cpp:119-146 | one weight matrix per layer transition, matrix i of shape arch[i+1] × arch[i], and bias i of length arch[i+1] |
| `NeuralNetworks.LayeredParameters` | src/models/NeuralNetwork.cpp:437-440 | counting the entries of such matrices and biases gives Σ (arch[i+1]·arch[i] + arch[i+1]) |
| `NeuralNetworks.ArchitectureParametersAtLeast` | src/models/NeuralNetwork.cpp:437-440 | with non-negative widths the count up to layer k is at least that layer's width |
| `NeuralNetworks.DefaultParameters` | src/models/NeuralNetwork.cpp:15-16 | the default single hidden layer of 10 on n features has 10n + 21 parameters |
| `NeuralNetworks.ChunksFlatten` | src/models/NeuralNetwork.cpp:169-179 | the mini-batches, one after the other, are the shuffled index list |
| `NeuralNetworks.ChunksSizes` | src/models/NeuralNetwork.cpp:169-170 | each batch holds min(batchSize, n − i) indices: batchSize for all but the last, which holds 1 to batchSize; no batch for an empty list |
| `NeuralNetworks.BatchesCoverOnce` | src/models/NeuralNetwork.cpp:160-179 | for a shuffle of 0..n−1 the batches hold every sample exactly once and nothing else |
| `NeuralNetworks.MiniBatches` | src/models/NeuralNetwork.cpp:169-179 | the loop over i in steps of batchSize cuts the list into those batches |
| `NeuralNetworks.EpochsRunFacts` | src/models/NeuralNetwork.cpp:155-206 | the epoch loop runs between 1 and `epochs` epochs (none when `epochs` is not positive) and stops early exactly after the first epoch whose loss moved by less than tol |
| `NeuralNetworks.NeuralNetwork.constructor` | src/models/NeuralNetwork.cpp:10-17 | one hidden layer of 10, RELU, LINEAR, 0.01, 1000 epochs, batches of 32, tol 1e-4; not fitted |
| `NeuralNetworks.NeuralNetwork.WithActivations` | src/models/NeuralNetwork.cpp:19-30 | stores the given settings; not fitted |
| `NeuralNetworks.NeuralNetwork.WithNames` | src/models/NeuralNetwork.cpp:32-67 | the parsed hidden activation, a LINEAR output, tol 1e-4; the solver and alpha are not kept; not fitted |
| `NeuralNetworks.NeuralNetwork.Train` | src/models/NeuralNetwork.cpp:155-206 | epoch k cuts the k-th shuffle of 0..n−1 into mini-batches, for as many epochs as the convergence rule allows |
| `NeuralNetworks.NeuralNetwork.Fit` | src/models/NeuralNetwork.cpp:69-219 | false with nothing changed exactly when X and y differ in rows; otherwise shape, names and target recorded, one layer per transition of the architecture, the epochs run, fitted |
| `NeuralNetworks.NeuralNetwork.Record` | src/models/NeuralNetwork.cpp:78-209 | records shape, names, layers and the fitted flag, settings unchanged |
| `NeuralNetworks.NeuralNetwork.Predict` | src/models/NeuralNetwork.cpp:388-410 | an error exactly when unfitted (`runtime_error`) or on a column mismatch (`invalid_argument`); otherwise one output per row |
| `NeuralNetworks.NeuralNetwork.TotalParameters` | src/models/NeuralNetwork.cpp:436-440 | the loop sums the weight and bias entries: the architecture's parameter count once fitted, 0 before |
| `NeuralNetworks.NeuralNetwork.Parameters` | src/models/NeuralNetwork.cpp:416-444 | exactly the fixed keys plus one `hidden_layer_k_size` per hidden layer (k from 1), with the settings, the layer sizes, the activation codes and the total parameter count |
| `NeuralNetworks.NeuralNetwork.Description` | src/models/NeuralNetwork.cpp:458-492 | "Neural Network with <n> input features, ", the hidden layers' phrases, then " and 1 output neuron (hidden: <name>, output: <name>)" |
| `NeuralNetworks.AddHiddenSizes` | src/models/NeuralNetwork.cpp:427-429 | the loop adds one key per hidden layer holding its size, keeping the other entries |
| `NeuralNetworks.HiddenKeyInjective` | src/models/NeuralNetwork.cpp:428 | different hidden layers get different keys, so no size overwrites another |
| `NeuralNetworks.HiddenKeysNotFixed` | src/models/NeuralNetwork.cpp:428 | no hidden-layer key is one of the fixed keys |
| `MainWindows.CreateModel` | src/gui/MainWindow.cpp:321-368 | a model exactly for the six listed type names (each a LinearRegression placeholder), none for any other |
| `MainWindows.AfterModel` | src/gui/MainWindow.cpp:136-149 | choosing a model leads to the variables exactly for `Linear Regression` and to the hyperparameters for every other type |
| `MainWindows.BackMovesBack` | src/gui/MainWindow.cpp:220-249 | Back never moves forward in the wizard, and moves strictly back from every screen but the first |
| `MainWindows.SelectThenBack` | src/gui/MainWindow.cpp:136-149 | selecting any model and then pressing Back lands on the model screen |
| `MainWindows.ResultsBackTwice` | src/gui/MainWindow.cpp:220-249 | two Backs from the results reach the model screen for `Linear Regression` and the hyperparameter screen otherwise |
| `MainWindows.HeaderFacts` | src/gui/MainWindow.cpp:269-319 | the variable screen's header says Step 3 for `Linear Regression` and Step 4 otherwise, and different screens have different headers |
| `MainWindows.MainWindow.constructor` | src/gui/MainWindow.cpp:22-106 | the window opens on the file screen, status `Ready`, nothing chosen |
| `MainWindows.MainWindow.UpdateUI` | src/gui/MainWindow.cpp:269-319 | exactly the current screen's panel is shown under its header; the variable screen is offered the frame's column names |
| `MainWindows.MainWindow.HandleFileSelected` | src/gui/MainWindow.cpp:112-134 | a loaded file moves to the model screen with the frame kept and the row and column counts reported; a failed load keeps the screen and frame |
| `MainWindows.MainWindow.HandleModelSelected` | src/gui/MainWindow.cpp:136-149 | records the type and moves to `AfterModel`; the hyperparameter screen is given the type unless it is `Linear Regression` |
| `MainWindows.MainWindow.HandleHyperparametersSelected` | src/gui/MainWindow.cpp:151-157 | records the values and moves to the variable screen, nothing else changed |
| `MainWindows.MainWindow.HandleVariablesSelected` | src/gui/MainWindow.cpp:159-213 | records the inputs, target and created model; reaches the results only when a model exists and its fit succeeds, reporting the fit's outcome |
| `MainWindows.MainWindow.HandleBackButton` | src/gui/MainWindow.cpp:220-249 | moves to `Back` of the current screen, the choices unchanged |
| `MainWindows.MainWindow.HandleStartOver` | src/gui/MainWindow.cpp:251-267 | back to the file screen with path, type, hyperparameters, inputs, target, frame and model cleared |
| `VariableSelectors.CDiv` | src/gui/VariableSelector.cpp:26-35 | C++ integer division by a positive divisor truncates toward zero, for either sign of the dividend |
| `VariableSelectors.LayoutOrdered` | src/gui/VariableSelector.cpp:26-35 | the browser width is non-negative exactly when the box is at least 38 wide, and then the available browser, the button column, the selected browser and the target browser lie left to right |
| `VariableSelectors.RemoveAt` | src/gui/VariableSelector.cpp:209-216 | removing a line keeps every line before it, shifts every line after it down by one and shortens the list by one |
| `VariableSelectors.RemoveAtDistinct` | src/gui/VariableSelector.cpp:209-216 | removing a line from a list without repeats keeps it without repeats, and the list then holds exactly the old names other than the removed one |
| `VariableSelectors.VariableSelector.constructor` | src/gui/VariableSelector.cpp:38-141 | the screen starts with empty browsers and the add, remove and run buttons inactive |
| `VariableSelectors.VariableSelector.UpdateRunButtonState` | src/gui/VariableSelector.cpp:281-285 | the run button is active exactly when at least one input is chosen and a target is highlighted; nothing else changes |
| `VariableSelectors.VariableSelector.SetAvailableVariables` | src/gui/VariableSelector.cpp:143-155 | both the available and the target browser list the given columns, the inputs are cleared, nothing is highlighted, the information box is empty and run is inactive |
| `VariableSelectors.VariableSelector.HandleAddVariableClick` | src/gui/VariableSelector.cpp:194-207 | the highlighted column is appended to the inputs unless it is already there; with nothing highlighted nothing changes; the inputs stay free of repeats |
| `VariableSelectors.VariableSelector.HandleRemoveVariableClick` | src/gui/VariableSelector.cpp:209-216 | the highlighted input is removed, the highlight is cleared and remove is deactivated; with nothing highlighted nothing changes |
| `VariableSelectors.VariableSelector.HandleRunButtonClick` | src/gui/VariableSelector.cpp:218-240 | the callback fires exactly when a target is highlighted and is not among the inputs, and then receives the inputs in order and that target |
| `VariableSelectors.VariableSelector.HandleAvailableVariableSelectionChange` | src/gui/VariableSelector.cpp:246-257 | the new highlight is recorded, add is active exactly when a line is highlighted, and the information box names it or is cleared |
| `VariableSelectors.VariableSelector.HandleSelectedVariableSelectionChange` | src/gui/VariableSelector.cpp:259-269 | the new highlight is recorded, remove is active exactly when a line is highlighted, and the information box names it or is left as it was |
| `VariableSelectors.VariableSelector.HandleTargetVariableChange` | src/gui/VariableSelector.cpp:271-279 | the new target highlight is recorded, the information box names it, and run becomes active exactly when an input is chosen and a target highlighted |
| `HyperparameterSelectors.ElasticNetNamed` | src/gui/HyperparameterSelector.cpp:132-157 | the ElasticNet screen lists alpha, lambda, max_iter and tol, in that order |
| `HyperparameterSelectors.ElasticNetDistinct` | src/gui/HyperparameterSelector.cpp:132-157 | the ElasticNet parameter names have no repeats |
| `HyperparameterSelectors.XGBoostNamed` | src/gui/HyperparameterSelector.cpp:159-192 | the XGBoost screen lists learning_rate, max_depth, n_estimators, subsample, colsample_bytree, min_child_weight and gamma, in that order |
| `HyperparameterSelectors.XGBoostDistinct` | src/gui/HyperparameterSelector.cpp:159-192 | the XGBoost parameter names have no repeats |
| `HyperparameterSelectors.RandomForestNamed` | src/gui/HyperparameterSelector.cpp:194-224 | the Random Forest screen lists n_estimators, max_depth, min_samples_split, min_samples_leaf, max_features and bootstrap, in that order |
| `HyperparameterSelectors.RandomForestDistinct` | src/gui/HyperparameterSelector.cpp:194-224 | the Random Forest parameter names have no repeats |
| `HyperparameterSelectors.NeuralNetworkNamed` | src/gui/HyperparameterSelector.cpp:226-261 | the Neural Network screen lists hidden_layer_sizes, activation, learning_rate, max_iter, batch_size, solver and alpha, in that order |
| `HyperparameterSelectors.NeuralNetworkDistinct` | src/gui/HyperparameterSelector.cpp:226-261 | the Neural Network parameter names have no repeats |
| `HyperparameterSelectors.GradientBoostingNamed` | src/gui/HyperparameterSelector.cpp:263-297 | the Gradient Boosting screen lists learning_rate, n_estimators, max_depth, min_samples_split, min_samples_leaf, subsample and loss, in that order |
| `HyperparameterSelectors.GradientBoostingDistinct` | src/gui/HyperparameterSelector.cpp:263-297 | the Gradient Boosting parameter names have no repeats |
| `HyperparameterSelectors.ChoiceDefault` | src/gui/HyperparameterSelector.cpp:377-379 | a choice shows its default exactly when the default index lies inside the option list, and then shows that option |
| `HyperparameterSelectors.RowsIncrease` | src/gui/HyperparameterSelector.cpp:301-302 | each parameter row lies at least 60 below every row added before it |
| `HyperparameterSelectors.WithToggleFacts` | src/gui/HyperparameterSelector.cpp:426-448 | addAutoToggle gives a toggle to the first row of that name without one, to no other row, and changes nothing else; it changes something whenever such a row exists |
| `HyperparameterSelectors.ClickFacts` | src/gui/HyperparameterSelector.cpp:464-473 | clicking a row's Auto toggle flips it; for the first row of that name, Auto on deactivates its widget and Auto off reactivates it; no other row changes except the first row of the name, in its activation only |
| `HyperparameterSelectors.CollectedKeys` | src/gui/HyperparameterSelector.cpp:500-531 | collectParameters has one key per parameter name and no other |
| `HyperparameterSelectors.CollectedAt` | src/gui/HyperparameterSelector.cpp:500-531 | the value under a row's name (when no later row shares it) is "auto" when its toggle is on, "true" or "false" for a check box, and otherwise the row's own widget text |
| `HyperparameterSelectors.FreshScreenCollects` | src/gui/HyperparameterSelector.cpp:500-531 | on a freshly built screen the collected keys are exactly the screen's parameter names, and each maps to the text of its default widget |
| `HyperparameterSelectors.AttachAsWritten` | src/gui/HyperparameterSelector.cpp:436-443 | as written, the Auto button's single user-data slot ends up holding the parameter-name copy, overwriting the selector registered with the callback |
| `HyperparameterSelectors.AutoToggleClickLost` | src/gui/HyperparameterSelector.cpp:545-556 | as written, the callback never receives the selector, so no Auto click reaches handleAutoToggle on a real selector |
| `HyperparameterSelectors.HyperparameterSelector.constructor` | src/gui/HyperparameterSelector.cpp:6-48 | the screen starts with no model type, no parameter rows, the title "Model Hyperparameters" and the parameter group 110 below its top |
| `HyperparameterSelectors.HyperparameterSelector.ClearUI` | src/gui/HyperparameterSelector.cpp:71-94 | every parameter row is removed; model type and title are unchanged |
| `HyperparameterSelectors.HyperparameterSelector.AddParam` | src/gui/HyperparameterSelector.cpp:299-424 | an add*Param call appends one active row, without a toggle, holding the given widget value, at 20 + 60 times the earlier row count below the group top |
| `HyperparameterSelectors.HyperparameterSelector.AddAutoToggle` | src/gui/HyperparameterSelector.cpp:426-448 | the rows become WithToggle of the old rows (see WithToggleFacts) |
| `HyperparameterSelectors.HyperparameterSelector.UpdateParamVisibility` | src/gui/HyperparameterSelector.cpp:450-462 | the first row of the name is deactivated when Auto is on and activated when it is off; no other row changes |
| `HyperparameterSelectors.HyperparameterSelector.HandleAutoToggle` | src/gui/HyperparameterSelector.cpp:464-473 | the first toggled row of the name sets the visibility of the first row of that name from its Auto state; with no toggled row of that name nothing changes |
| `HyperparameterSelectors.HyperparameterSelector.ClickAutoToggle` | src/gui/HyperparameterSelector.cpp:464-473 | the intended Auto click: the rows become Clicked of the old rows (see ClickFacts) |
| `HyperparameterSelectors.HyperparameterSelector.AddAll` | src/gui/HyperparameterSelector.cpp:132-297 | adding a screen's parameters one by one, each followed by its Auto toggle, builds exactly one row per parameter in order, each with its toggle off |
| `HyperparameterSelectors.HyperparameterSelector.AddOwnToggle` | src/gui/HyperparameterSelector.cpp:426-448 | when the names have no repeats, the toggle added after a parameter goes on that parameter's own newest row |
| `HyperparameterSelectors.HyperparameterSelector.BuildUIForModelType` | src/gui/HyperparameterSelector.cpp:96-117 | the title becomes "Configure <type> Hyperparameters" and the rows are the type's parameter list (none for Linear Regression or an unknown type) |
| `HyperparameterSelectors.HyperparameterSelector.CreateElasticNetUI` | src/gui/HyperparameterSelector.cpp:132-157 | builds the ElasticNet rows |
| `HyperparameterSelectors.HyperparameterSelector.CreateXGBoostUI` | src/gui/HyperparameterSelector.cpp:159-192 | builds the XGBoost rows |
| `HyperparameterSelectors.HyperparameterSelector.CreateRandomForestUI` | src/gui/HyperparameterSelector.cpp:194-224 | builds the Random Forest rows |
| `HyperparameterSelectors.HyperparameterSelector.CreateNeuralNetworkUI` | src/gui/HyperparameterSelector.cpp:226-261 | builds the Neural Network rows |
| `HyperparameterSelectors.HyperparameterSelector.CreateGradientBoostingUI` | src/gui/HyperparameterSelector.cpp:263-297 | builds the Gradient Boosting rows |
| `HyperparameterSelectors.HyperparameterSelector.SetModelType` | src/gui/HyperparameterSelector.cpp:62-69 | the same type changes nothing; a new type clears the screen and builds that type's rows and title |
| `HyperparameterSelectors.HyperparameterSelector.CollectParameters` | src/gui/HyperparameterSelector.cpp:500-531 | the result is the name-to-text map Collected of the rows (see CollectedKeys, CollectedAt) |
| `PlotNavigators.NavigatorChecks` | src/gui/PlotNavigator.cpp:22-68 | the two-series createPlot accepts equal-length series even when empty, and the widget then shows nothing; the curve createPlot accepts exactly what the widget accepts, so every curve it adds is drawn with its type |
| `PlotNavigators.PlotNavigator.constructor` | src/gui/PlotNavigator.cpp:13-16 | the navigator starts with no plots at index 0 |
| `PlotNavigators.PlotNavigator.UpdatePlotCount` | src/gui/PlotNavigator.cpp:198-200 | the cached count becomes the number of plots; nothing else changes |
| `PlotNavigators.PlotNavigator.Push` | src/gui/PlotNavigator.cpp:22-68 | a widget is appended to the plots; index and count are unchanged |
| `PlotNavigators.PlotNavigator.CreatePairPlot` | src/gui/PlotNavigator.cpp:22-68 | scatter, time-series and residual requests with equal-length series append exactly one fresh widget with the title and the data, keeping the earlier plots; any other request leaves the plots unchanged |
| `PlotNavigators.PlotNavigator.CreateImportancePlot` | src/gui/PlotNavigator.cpp:70-85 | a non-empty importance map appends one fresh widget with the title and the entries; an empty one adds nothing |
| `PlotNavigators.PlotNavigator.CreateCurvePlot` | src/gui/PlotNavigator.cpp:87-116 | non-empty equal-length x and y, with y2 empty or as long, append one fresh widget holding the curve (blank for a non-curve type); anything else adds nothing |
| `PlotNavigators.PlotNavigator.ShowPlot` | src/gui/PlotNavigator.cpp:118-122 | the index moves to the requested plot when it exists and stays put otherwise |
| `PlotNavigators.PlotNavigator.NextPlot` | src/gui/PlotNavigator.cpp:124-132 | moves one forward and reports true exactly when a later plot exists; otherwise nothing changes |
| `PlotNavigators.PlotNavigator.PreviousPlot` | src/gui/PlotNavigator.cpp:134-142 | moves one back and reports true exactly when there are plots and the index is above 0; otherwise nothing changes |
| `PlotNavigators.PlotNavigator.ClearPlots` | src/gui/PlotNavigator.cpp:144-149 | no plots remain, the index is 0 and the count 0 |
| `PlotNavigators.PlotNavigator.GetPlotCount` | src/gui/PlotNavigator.cpp:151-153 | the count equals the number of plots |
| `PlotNavigators.PlotNavigator.SavePlotToFile` | src/gui/PlotNavigator.cpp:202-219 | saving never succeeds: an index past the list fails, and the widget's own save reports failure |
| `PlotWidgets.CreateOutcomes` | src/gui/PlotWidget.cpp:72-228 | a refused create changes nothing, the plot type included; an accepted one sets its type and fixed axis labels; the time series runs over 0..n-1; curves accept a missing validation series but refuse one of another length |
| `PlotWidgets.SafeTitleFacts` | src/gui/PlotWidget.cpp:236-242 | the default file stem keeps the title's length and every other character, holds no space, '/' or backslash, and is its own safe title |
| `PlotWidgets.OutputFile` | src/gui/PlotWidget.cpp:233-245 | the output name is the given file name, or when that is empty the safe title followed by ".png" |
| `PlotWidgets.PlotWidget.constructor` | src/gui/PlotWidget.cpp:28-31 | a new widget is titled "Plot", has no plot type, axes "X" and "Y" and no data |
| `PlotWidgets.PlotWidget.CreateScatterPlot` | src/gui/PlotWidget.cpp:43-70 | stores both series and labels with the scatter type when both are non-empty and of equal length; otherwise nothing changes |
| `PlotWidgets.PlotWidget.CreateTimeSeriesPlot` | src/gui/PlotWidget.cpp:72-104 | stores the actual values over the time axis 0..n-1 with the predictions beside them under "Time" and "Value" when accepted; otherwise nothing changes |
| `PlotWidgets.PlotWidget.CreateResidualPlot` | src/gui/PlotWidget.cpp:106-131 | stores predictions and residuals with the residual type when accepted; otherwise nothing changes |
| `PlotWidgets.PlotWidget.CreateImportancePlot` | src/gui/PlotWidget.cpp:133-158 | stores the importance entries with the importance type when there are any; otherwise nothing changes |
| `PlotWidgets.PlotWidget.CreateLearningCurvePlot` | src/gui/PlotWidget.cpp:160-193 | stores sizes, training and validation scores with the learning-curve type when accepted; otherwise nothing changes |
| `PlotWidgets.PlotWidget.CreateLossCurvePlot` | src/gui/PlotWidget.cpp:195-228 | stores epochs, training and validation loss with the loss-curve type when accepted; otherwise nothing changes |
| `PlotWidgets.PlotWidget.SetTitle` | src/gui/PlotWidget.cpp:253-256 | the title becomes the given one; the data are unchanged |
| `PlotWidgets.PlotWidget.SavePlotToFile` | src/gui/PlotWidget.cpp:230-251 | computes OutputFile of the title and name by three in-place replacements and always reports failure |
| `CharReplace.ReplacedFacts` | src/gui/PlotWidget.cpp:239-241 | std::replace keeps the length, turns each occurrence of the character into its replacement, keeps every other character, leaves none behind, and replacing again changes nothing |
| `CharReplace.ReplaceInPlace` | src/gui/PlotWidget.cpp:239-241 | the array afterwards holds the replaced contents of what it held before |
| `CharReplace.ToArray` | src/gui/PlotWidget.cpp:236 | the copy is a fresh buffer holding the string |
| `PlotGLWindows.TitleOr` | src/gui/PlotGLWindow.cpp:186-343 | a create keeps a non-empty title and otherwise uses the plot type's default title |
| `PlotGLWindows.CreateOutcomes` | src/gui/PlotGLWindow.cpp:186-343 | a refused create leaves the plot as it was, type included; an accepted one sets its type and never leaves the title empty (the defaults "Residual Plot", "Time Series Plot", "Feature Importance", "Learning Curve"); the time series runs over 0..n-1; the learning curve is refused without a validation series |
| `PlotGLWindows.ScatterLine` | src/gui/PlotGLWindow.cpp:400-424 | the identity line is drawn exactly when both series are non-empty and of equal length, and then runs over IdentityLine of the two series |
| `PlotGLWindows.PlotGLWindow.constructor` | src/gui/PlotGLWindow.cpp:13-19 | a new window is not initialised and holds an empty scatter plot |
| `PlotGLWindows.PlotGLWindow.CreateScatterPlot` | src/gui/PlotGLWindow.cpp:186-217 | the plot becomes ScatterPlot of the old plot and the arguments (see CreateOutcomes); initialisation is unchanged |
| `PlotGLWindows.PlotGLWindow.CreateTimeSeriesPlot` | src/gui/PlotGLWindow.cpp:219-255 | the plot becomes TimeSeriesPlot of the old plot and the arguments; initialisation is unchanged |
| `PlotGLWindows.PlotGLWindow.CreateResidualPlot` | src/gui/PlotGLWindow.cpp:257-286 | the plot becomes ResidualPlot of the old plot and the arguments; initialisation is unchanged |
| `PlotGLWindows.PlotGLWindow.CreateImportancePlot` | src/gui/PlotGLWindow.cpp:288-310 | the plot becomes ImportancePlot of the old plot and the arguments; initialisation is unchanged |
| `PlotGLWindows.PlotGLWindow.CreateLearningCurvePlot` | src/gui/PlotGLWindow.cpp:312-343 | the plot becomes LearningCurvePlot of the old plot and the arguments; initialisation is unchanged |
| `PlotGLWindows.PlotGLWindow.ImportanceBarsShown` | src/gui/PlotGLWindow.cpp:569-591 | the bars show every importance entry once, as a permutation of the stored entries in non-increasing order of importance, values and labels side by side |
| `PlotGeometry.MinOf` | src/gui/PlotGLWindow.cpp:411 | std::min_element of a non-empty series is one of its values and at most every value |
| `PlotGeometry.MaxOf` | src/gui/PlotGLWindow.cpp:412 | std::max_element of a non-empty series is one of its values and at least every value |
| `PlotGeometry.IdentityLine` | src/gui/PlotGLWindow.cpp:411-420 | the y = x line exists exactly when both series have values; it runs from (m, m) to (M, M), where m and M are values of the series and bound every value of both |
| `PlotGeometry.ZeroLine` | src/gui/PlotGLWindow.cpp:525-531 | the y = 0 line exists exactly when there are predictions; it lies at height 0 and spans from the least to the greatest prediction, both values of the series |
| `PlotGeometry.TimeIndices` | src/gui/PlotGLWindow.cpp:237-240 | the filled index vector has one entry per value and holds 0, 1, ..., n - 1 |
| `PlotGeometry.Insert` | src/gui/PlotGLWindow.cpp:575-578 | inserting an entry adds exactly it to the multiset of entries |
| `PlotGeometry.InsertSorted` | src/gui/PlotGLWindow.cpp:575-578 | inserting into a non-increasing sequence keeps it non-increasing |
| `PlotGeometry.SortByValue` | src/gui/PlotGLWindow.cpp:575-578 | the reference sort is a permutation of its input in non-increasing order of value |
| `PlotGeometry.SortedValuesUnique` | src/gui/PlotGLWindow.cpp:575-578 | any two non-increasing orderings of the same entries give the same bar values in the same order, so the bars depend neither on the map's iteration order nor on how ties are broken |
| `PlotGeometry.ImportanceBars` | src/gui/PlotGLWindow.cpp:569-591 | the bars are the values and labels, side by side, of some non-increasing permutation of the map's entries |
| `ResultsViews.CRem` | src/gui/Resultsview.cpp:242 | C++ % by a positive divisor: the dividend is divisor times the truncated quotient plus the remainder, which lies in [0, divisor) for a non-negative dividend and in (-divisor, 0] for a negative one |
| `ResultsViews.CycleFacts` | src/gui/Resultsview.cpp:239-256 | for the +1 and -1 steps of the Next and Previous buttons the new index is the mathematical step modulo 5 and stays in 0..4; a step forward then back (or back then forward) restores the index, and five steps forward come round |
| `ResultsViews.CycleOutOfTable` | src/gui/Resultsview.cpp:242 | from index 0, direction -6 gives index -1, outside the label table |
| `ResultsViews.CycleNegativeExactly` | src/gui/Resultsview.cpp:242 | the stepped index is always below 5, and it is negative exactly when current + direction + 5 is negative and not a multiple of 5 |
| `ResultsViews.Residuals` | src/gui/Resultsview.cpp:514-518 | one residual per actual value, each the actual minus the predicted value at that position, so prediction plus residual gives back the actual value |
| `ResultsViews.ResultsView.constructor` | src/gui/Resultsview.cpp:12-146 | the view starts with no model, no comparison list, plotting not set up, the first plot type and the placeholder label |
| `ResultsViews.ResultsView.UpdatePlotTypeLabel` | src/gui/Resultsview.cpp:258-270 | the label becomes the current type's name and the back end is told the current type; nothing else changes |
| `ResultsViews.ResultsView.CyclePlot` | src/gui/Resultsview.cpp:239-256 | nothing happens before plotting is set up; otherwise the type index steps by the direction modulo 5 and the label and back end follow |
| `ResultsViews.ResultsView.SetModel` | src/gui/Resultsview.cpp:361-389 | a null model is ignored; otherwise it becomes the model, and with a data frame plotting is set up once and the label refreshed once the plots exist; in every other case the label and the back end's plot type are unchanged |
| `ResultsViews.ResultsView.OnModelComparisonSelected` | src/gui/Resultsview.cpp:391-408 | an empty list is ignored; otherwise the list is kept, the index is 0, navigation is shown exactly when there are several models, and the first becomes the model |
| `PlottingUtilities.ParentPath` | src/utils/PlottingUtility.cpp:16 | parent_path drops exactly the last component, and the empty path stays empty |
| `PlottingUtilities.ScriptCandidates` | src/utils/PlottingUtility.cpp:19-24 | there are four candidate locations, each starting with the executable's directory: the first two lie under it, and the last two continue with ".." and so climb to its parent |
| `PlottingUtilities.FirstExistingIsFirst` | src/utils/PlottingUtility.cpp:26-30 | the search returns the empty path exactly when no candidate exists, and otherwise an existing candidate none of whose predecessors exists |
| `PlottingUtilities.GetPlottingScriptPath` | src/utils/PlottingUtility.cpp:8-33 | the empty path when the executable's path cannot be read; otherwise the first existing candidate under its directory, or the empty path when none exists |
| `PlottingUtilities.ScriptPathUnderAppDir` | src/utils/PlottingUtility.cpp:8-33 | the script found is one of the four candidates, exists, comes after only missing ones and starts with the executable's directory; none is found exactly when none of the four exists |
| `PlottingUtilities.FormatPathForPython` | src/utils/PlottingUtility.cpp:36-42 | the result has the path's length, every backslash turned into '/' and every other character kept, and holds no backslash |
| `PlottingUtilities.FormatPathIdempotent` | src/utils/PlottingUtility.cpp:36-42 | formatting an already formatted path changes nothing |

## Left out

- Rendering and widget construction are not modelled. This covers OpenGL, ImGui, ImPlot and FLTK drawing, the `draw`/`render*`/`layout` methods, `initializeImGui`/`cleanupImGui` and the ImGui backends. They are calls into foreign libraries with no state the rest of the program reads.
- FileSelector, ModelSelector, DataTable, ExportDialog and main.cpp are not part of this model. They are file choosers and fixed widget lists.
- Logging (Logger.h) and all console output are not modelled. They are file I/O, a mutex and clock time.
- The shell-out to Python in PlottingUtility.h and the plotting script are not modelled. They are temporary files, `std::system`, pandas and matplotlib.
- Floating-point numerics are not modelled, because they are Eigen linear algebra on doubles:
  - the neural network's normalisation, forward and backward propagation, activation functions, statistics and permutation importance (`getFeatureImportance`);
  - ElasticNet and LinearRegression;
  - RMSE and R² in every model (`getStatistics`).
  Doubles are reals, so rounding, NaN and infinity are not modelled.
- `getName` in every model, and the constant `getDescription` string of XGBoost (src/models/XGBoost.cpp:374-376), are not modelled.
- Random number generation (`random_device`, `mt19937`, `shuffle`, `uniform_int_distribution`) is not modelled. Its results are inputs.
- Methods only declared in the headers, such as `createNeuralNetworkArchitecturePlot`, are not modelled, because the sources give them no body.
- How an output stream formats a double is an input function (`fmt` in `HyperparameterSelectors.CollectParameters`). The exact digits are not modelled.
- RandomForests.Average: with no trees the source divides 0 by 0 (NaN). The model reads that as 0. Only forests with at least one tree are stated about.
- ResultsViews.ResultsView.CyclePlot: requires the stepped index to be non-negative. That index is negative exactly when current + direction + 5 is negative and not a multiple of 5 (`CycleNegativeExactly`); the source then reads outside its five-entry label table (undefined behaviour). `CycleOutOfTable` is one such case, direction -6 from index 0. The buttons pass only +1 and -1.
- PlottingUtilities.GetPlottingScriptPath: the `MAX_PATH` buffer limit of the Windows lookup is not modelled. A failed lookup is the `None` input.
- PlotNavigators.PlotNavigator.SavePlotToFile: creating the directory is not modelled. It can only make the result false, and the result is always false.
- ResultsViews.ResultsView.SetModel: the statistics and parameter text displays it refreshes are not modelled. `createPlots` is reduced to whether it completes.
- NeuralNetworks.NeuralNetwork.Fit and NeuralNetworks.NeuralNetwork.Train: require a positive batch size whenever at least one epoch runs over a non-empty set. With batch size 0 the mini-batch loop (`i += batchSize`, src/models/NeuralNetwork.cpp:169) never ends, and a negative batch size asks Eigen for a matrix of negative size (src/models/NeuralNetwork.cpp:173); neither outcome is modelled.
- RandomForests.RandomForest.ChooseFeatures: with no features at all, `getNumFeaturesToConsider` still gives 1, and the source copies one element past the end of an empty vector (src/models/RandomForest.cpp:158-159, undefined behaviour). The model clips the count to the number of features and so picks no feature there.
- GradientBoostings.SubsampleSize: a negative subsample fraction gives a negative product, which the model reads as a subsample of size 0; the source would then build an index vector of negative size.
- CSV.NumericValue: a digit run too long for a double makes `stod` throw `out_of_range` (src/data/CSVReader.cpp:105); the model reads every digit run as its exact real value.
- NeuralNetworks.InitLayers: negative hidden-layer sizes are accepted as in the source (src/models/NeuralNetwork.cpp:135), where Eigen would be asked for a matrix of negative size; the model only records the shapes.
- The inline `setPlotType`/`getPlotType` accessors of src/gui/PlotGLWindow.h:78-88 are not modelled; they only store and return the plot type field.
- GradientBoostings.GradientBoosting.BuildTree: makes a node with no samples a leaf. The source's `findBestSplit` would index an empty sample list there (undefined behaviour); the model gives that node the empty mean.

## Findings

| source | as written | input that shows it | evidently intended | confidence | as-written member | corrected member |
|---|---|---|---|---|---|---|
| src/models/GradientBoosting.cpp:110-116 | `fit` calls `predict(X)` to compute the RMSE before it sets `isFitted = true`, and `predict` throws on an unfitted model, so the exception handler makes `fit` return false | any first `fit` on a freshly constructed model with matching X and y | `fit` succeeds whenever X and y agree in row count | not executed | `GradientBoostings.GradientBoosting.FitAsWritten` | `GradientBoostings.GradientBoosting.Fit` |
| src/models/RandomForest.cpp:189 | the split's weighted impurity decrease (a double) is added into `std::vector<int> featureImportance` (RandomForest.h:150), so every update is truncated toward zero | two samples with targets 0 and 1 and two features: the only split decreases the variance by 0.25, and 2 × 0.25 = 0.5 truncates to 0, so both features get the 1/2 fallback instead of 1 and 0 | importance accumulates the real-valued decrease | not executed | `RandomForests.TruncationLosesTheOnlySplit` | `RandomForests.RandomForest.BuildTree` |
| src/gui/HyperparameterSelector.cpp:436-443 | `addAutoToggle` registers the callback with the selector as its data, then overwrites the button's single user-data slot with the parameter-name copy; the callback casts that name string to the selector | a click on any Auto toggle | the click reaches `handleAutoToggle` for that parameter and sets its widget's activation | not executed | `HyperparameterSelectors.AutoToggleClickLost` | `HyperparameterSelectors.HyperparameterSelector.ClickAutoToggle` |
