# Fraud-signal analysis: a Dafny model

This project models the table arithmetic of two pandas analysis scripts from a
transaction fraud study.

- `python/analysis/plots.py` derives an additive **fraud signal score** for each
  transaction. The score is the sum of seven weighted risk indicators; one of
  them is a "first-time receiver" flag computed from a count over destination
  accounts.
- The same script computes the grouped **mismatch rates** behind its plots:
  - by transaction type;
  - by destination activity step;
  - the either / both / single-side breakdown.
  It also tags the **high-risk** rows at a mule-score threshold.
- `python/analysis/_threshold_evaluation.py` evaluates the score as a classifier:
  - it coerces the loaded columns to numbers;
  - at each fixed threshold it computes the confusion matrix (TP, FP, FN,
    TN), precision, recall, false-positive rate, baseline fraud rate and
    lift;
  - it sweeps every distinct score to build the precision-recall curve;
  - it ranks destination accounts to pick the ten with the highest risk.

A table is a sequence of records. Scores and rates are exact `real`s. All
weights are multiples of 0.5, so the score itself is exact. The mean of an
empty column, and the lift over a zero baseline, are the `NaN` constructor of
`Tally.Metric`.

Files:

- `tally.dfy` (module `Tally`): group-by aggregates over key/value columns, and
  their lemmas. These aggregates are count, integer and real sums, maximum,
  group mean, distinct keys, column total and column mean.
- `sorting.dfy` (module `Sorting`): `sort_values` as a sort by a total preorder.
  It is proved ordered and a permutation, and it keeps the elements and their
  distinctness.
- `plots.dfy` (module `Plots`): plots III to VI and the fraud signal score.
  - The score section changes the table column by column. Here it is the class
    `ScoreFrame`, whose methods add one derived column each.
  - The weighted terms live in their own field. The raw flags stay as read and
    are not overwritten.
- `threshold_evaluation.dfy` (module `ThresholdEvaluation`): the evaluation
  script. Its three driver loops are methods proved against the
  single-threshold functions.

Where the code and its informal description disagree, the model follows the
code:

- After `astype(int)` a label can be any integer, and a label other than 0 or 1
  falls in none of the four confusion cells. So TP + FP + FN + TN equals the
  row count minus the rows with such labels. `flagged_count` is TP + FP plus
  the flagged rows with such labels. Both identities are exact for 0/1
  labels.
- The precision-recall sweep and the metrics-table loop use the integer `0`
  where the evaluator uses `0.0`. Both are the value zero here.

## Model

| member | source | states |
|---|---|---|
| Tally.Count | python/analysis/plots.py:222 | a group size is at most the row count, and it is positive exactly when the key occurs |
| Tally.CountIsMultiplicity | python/analysis/plots.py:222 | a group size is the key's multiplicity in the key column, so it depends only on the column's contents, not its order |
| Tally.CountOneIffUnique | python/analysis/plots.py:223 | a row's key has group size 1 exactly when no other row carries that key |
| Tally.CountAt | python/analysis/plots.py:222 | the group size of a row's key is 1 for that row plus the rows with that key before it and after it |
| Tally.CountAppendRow | python/analysis/plots.py:222 | one more row adds 1 to its own key's group size and nothing to any other |
| Tally.CountAppend | python/analysis/plots.py:222 | the group size over two stacked tables is the sum of their group sizes |
| Tally.SumInt | python/analysis/_threshold_evaluation.py:171 | a group integer sum is 0 for a key that does not occur, and non-negative over a non-negative column |
| Tally.SumReal | python/analysis/_threshold_evaluation.py:169 | a group real sum is 0.0 for a key that does not occur, and non-negative over a non-negative column |
| Tally.SumIntOfRow | python/analysis/_threshold_evaluation.py:171 | a one-row table adds its value to its own key's integer sum and nothing to any other |
| Tally.SumIntAppend | python/analysis/_threshold_evaluation.py:171 | the integer group sum over two stacked tables is the sum of their group sums |
| Tally.SumRealOfRow | python/analysis/_threshold_evaluation.py:169 | a one-row table adds its value to its own key's real sum and nothing to any other |
| Tally.SumRealAppend | python/analysis/_threshold_evaluation.py:169 | the real group sum over two stacked tables is the sum of their group sums |
| Tally.SumIntOfIndicatorsCountsOnes | python/analysis/plots.py:89 | a group sum of 0/1 values is the number of the group's rows whose value is 1 |
| Tally.MaxReal | python/analysis/_threshold_evaluation.py:167 | a group maximum bounds every value of the group and is attained by one of them |
| Tally.Distinct | python/analysis/_threshold_evaluation.py:101 | `unique()` lists each key once, lists only keys that occur, and lists every key that occurs |
| Tally.Mean | python/analysis/_threshold_evaluation.py:40 | a column mean is `NaN` exactly when the column is empty |
| Tally.GroupMean | python/analysis/plots.py:63 | a group mean times the group size is the group sum, and the mean of a non-empty group of 0/1 values lies in [0, 1] |
| Tally.Total | python/analysis/plots.py:137-140 | a non-negative column has a non-negative total |
| Tally.SumIntOfIndicators | python/analysis/_threshold_evaluation.py:171 | a group sum of 0/1 values lies between 0 and the group size |
| Tally.TotalOfIndicators | python/analysis/plots.py:137-140 | a 0/1 column totals between 0 and its length |
| Tally.TotalOfIndicatorsCountsOnes | python/analysis/plots.py:137-140 | the total of a 0/1 column is the number of its entries equal to 1 |
| Tally.TotalsOfExclusiveColumns | python/analysis/plots.py:138-140 | three non-negative columns with at most 1 per row total at most the row count |
| Tally.TotalOfRowwiseSum | python/analysis/plots.py:137-140 | a column that is row by row the sum of three others totals to the sum of their totals |
| Tally.SumCountsOfCover | python/analysis/plots.py:90 | the sizes of the groups of a duplicate-free key list that covers every row add up to the row count |
| Sorting.SortBy | python/analysis/plots.py:95 | `sort_values`: the output is ordered by the relation and is a permutation of the input, with the same elements; distinct inputs stay distinct |
| Sorting.InsertBy | python/analysis/plots.py:95 | inserting into an ordered list keeps it ordered and adds exactly the new element |
| Plots.TypeMismatchRates | python/analysis/plots.py:63 | one entry per transaction type present; types are distinct; each entry is its type's mean `orig_delta_mismatch_dir`; rates are in descending order |
| Plots.TypeGroup | python/analysis/plots.py:63 | a type's group keeps its type, its rate is the group mean of `orig_delta_mismatch_dir` for that type, and over a 0/1 column it lies in [0, 1] |
| Plots.TypeGroups | python/analysis/plots.py:63 | one group per type occurring, each carrying its type's mean; `groupby` sorts its keys, and the model lists them in order of first appearance, which matters only among equal rates after the rate sort |
| Plots.ByRateDescendingIsTotalPreorder | python/analysis/plots.py:63 | "higher or equal rate first", the key order of `sort_values(ascending=False)`, is a total preorder |
| Plots.TypeMismatchRatesAreProportions | python/analysis/plots.py:63 | over a 0/1 column every per-type rate lies in [0, 1] |
| Plots.StepMismatchRates | python/analysis/plots.py:86-95 | one entry per `dest_tx_count_step` present, in strictly ascending step order; each is its step's mean `dest_mismatch` and group size |
| Plots.StepGroup | python/analysis/plots.py:87-90 | a step's group keeps its step; its rate is the group mean of `dest_mismatch` for that step; its `count` is the step's group size (its multiplicity in the column), between 1 and the row count; over a 0/1 `dest_mismatch` the rate lies in [0, 1] |
| Plots.StepGroups | python/analysis/plots.py:86-92 | one group per step value occurring, with its mean and size; the model lists them in order of first appearance, and the step sort that follows fixes the order |
| Plots.ByStepIsTotalPreorder | python/analysis/plots.py:95 | "lower or equal step first", the key order of `sort_values('dest_tx_count_step')`, is a total preorder |
| Plots.StepGroupSizesSumToRowCount | python/analysis/plots.py:90 | the `count` column of the step table adds up to the number of rows |
| Plots.StepTableSizesSumToRowCount | python/analysis/plots.py:86-90 | any table with one group per step value, in strictly ascending step order and holding every row's group, has group sizes that add up to the number of rows |
| Plots.StepMismatchRatesAreProportions | python/analysis/plots.py:89-90 | over a 0/1 `dest_mismatch` every step rate lies in [0, 1], and every group is non-empty |
| Plots.ShareOf | python/analysis/plots.py:129-141 | a category's rate is its count over the row count; on an empty table the rate is `NaN` and the count 0; over a 0/1 column the count is the number of rows with a 1 |
| Plots.OriginOnlyFlag | python/analysis/plots.py:132 | the "Origin only" test is 0/1 and is 1 exactly when `origin_mismatch` is 1 and `dest_mismatch` is 0 |
| Plots.DestOnlyFlag | python/analysis/plots.py:133 | the "Dest only" test is 0/1 and is 1 exactly when `dest_mismatch` is 1 and `origin_mismatch` is 0 |
| Plots.Breakdown | python/analysis/plots.py:129-141 | the "Origin only" and "Dest only" counts are the numbers of rows passing those tests, and the "Either" and "Both" counts the numbers of rows whose flag is 1 (when the column holds 0/1); each of the four rates is its count over the row count; on an empty table all four rates are `NaN` |
| Plots.SideCountsBounded | python/analysis/plots.py:132-133 | "Origin only" and "Dest only" never hold on the same row; with a consistent `both_mismatch`, origin-only + dest-only + both is at most the row count, and each count is non-negative |
| Plots.SingleSideRatesAreProportions | python/analysis/plots.py:132-133 | on a non-empty table both single-side rates are defined and lie in [0, 1], whatever the input flags hold |
| Plots.EitherDecomposes | python/analysis/plots.py:137-140 | when `either_mismatch` and `both_mismatch` agree with the side flags, the "Either" count is origin-only + dest-only + both |
| Plots.HighRisk | python/analysis/plots.py:203 | the tagged rows are exactly the rows with `mule_score_w >= threshold` (the bound is inclusive), each kept as often as it occurs in the input |
| Plots.HighRiskMonotone | python/analysis/plots.py:203 | a higher threshold never tags more rows |
| Plots.HighRiskTagging | python/analysis/plots.py:208-209 | `high_risk_count` is the number of tagged rows, at most the row count; with 0/1 labels `fraud_in_high_risk` is the number of tagged rows labelled 1; all rows tagged gives the row count, none gives 0 and 0 |
| Plots.HighRiskFraudFlagsAreIndicators | python/analysis/plots.py:209 | a 0/1 label column stays 0/1 on the tagged rows |
| Plots.HighRiskCountsBounded | python/analysis/plots.py:208-209 | with 0/1 labels, 0 <= `fraud_in_high_risk` <= `high_risk_count` <= row count |
| Plots.DestTxCountLifetime | python/analysis/plots.py:222 | `dest_tx_count_lifetime` of a row is the number of rows with its destination (its multiplicity in the `nameDest` column), between 1 and the row count |
| Plots.NewDestFlag | python/analysis/plots.py:223 | `is_new_dest` is 0 or 1, and it is 1 exactly when the lifetime count is 1 |
| Plots.IndicatorScore | python/analysis/plots.py:226-238 | reference reading of the heuristic: any set of active indicators scores between 0 and 11 |
| Plots.Weigh | python/analysis/plots.py:226-232 | `mule_score_w_high` is 2.5 exactly when `mule_score_w >= 2` and 0 otherwise; `dest_burst` is 1 exactly when the step is at least 3; each 0/1 flag contributes 0 or its weight; for 0/1 flags every term lies between 0 and its weight |
| Plots.ComponentSum | python/analysis/plots.py:235-238 | a row sum of terms within their weights lies in [0, 11] |
| Plots.FraudSignalScore | python/analysis/plots.py:222-238 | for 0/1 flags a row's score is the reference score of its active indicators |
| Plots.ActiveIndicators | python/analysis/plots.py:222-223 | the first-time-receiver indicator holds exactly when no other row has the same destination |
| Plots.WeightedTermsFollowIndicators | python/analysis/plots.py:226-238 | for 0/1 flags each weighted term is its weight (2.5, 2.5, 2, 1, 1, 1, 1) when its indicator holds and 0 otherwise, so the score is the weight of the active indicators |
| Plots.FraudSignalScoreBounds | python/analysis/plots.py:235-238 | for 0/1 flags the score lies in [0, 11] |
| Plots.IndicatorScoreMonotone | python/analysis/plots.py:235-238 | activating more indicators never lowers the score, and any newly active indicator raises it strictly |
| Plots.DestColumnPermutation | python/analysis/plots.py:222 | rearranging the rows rearranges the destination column the same way |
| Plots.FraudSignalScoreIgnoresRowOrder | python/analysis/plots.py:222-238 | a row's score does not depend on the order of the table: the same row in any rearrangement of the rows scores the same |
| Plots.CountByDest | python/analysis/plots.py:222 | the map-tally loop gives each row the number of rows that share its destination |
| Plots.ScoreFrame.constructor | python/analysis/plots.py:222-238 | a frame starts with the raw rows and no derived columns |
| Plots.ScoreFrame.AddDestTxCountLifetime | python/analysis/plots.py:222 | adds the lifetime count column and leaves the other columns unchanged |
| Plots.ScoreFrame.AddIsNewDest | python/analysis/plots.py:223 | adds the first-time-receiver flag of each lifetime count and leaves the other columns unchanged |
| Plots.ScoreFrame.AddWeightedComponents | python/analysis/plots.py:226-232 | adds the seven weighted terms of each row beside the raw flags and leaves the other columns unchanged |
| Plots.ScoreFrame.AddFraudSignalScore | python/analysis/plots.py:235-238 | adds the row sum of the weighted terms and leaves the other columns unchanged |
| Plots.ScoreFrame.DeriveFraudSignalScore | python/analysis/plots.py:222-238 | runs the section in order; afterwards every derived column has one entry per row and `fraud_signal_score[i]` is the score of row i |
| ThresholdEvaluation.TruncateTowardZero | python/analysis/_threshold_evaluation.py:11 | `astype(int)` drops the fraction toward zero, for either sign |
| ThresholdEvaluation.CoerceScore | python/analysis/_threshold_evaluation.py:10 | a numeric score cell is kept, and any other cell becomes 0.0 |
| ThresholdEvaluation.CoerceLabel | python/analysis/_threshold_evaluation.py:11 | an unparseable label becomes 0; a numeric label becomes the integer next to it toward zero |
| ThresholdEvaluation.Coerce | python/analysis/_threshold_evaluation.py:10-11 | a coerced row keeps its account name, takes the numeric score or 0.0, and takes the truncated label or 0 |
| ThresholdEvaluation.CoercionOfCells | python/analysis/_threshold_evaluation.py:10-11 | an unparseable cell becomes 0; a numeric score is kept; an integral label is kept; a fractional label is truncated toward zero |
| ThresholdEvaluation.CoerceTable | python/analysis/_threshold_evaluation.py:10-11 | coercion keeps the row count, the row order and each account name; each score is the cell's number or 0.0, and each label is the truncated number or 0 |
| ThresholdEvaluation.CoercedLabelBinary | python/analysis/_threshold_evaluation.py:11 | a coerced label is 0 or 1 exactly when its cell was unparseable or a number strictly between -1 and 2 |
| ThresholdEvaluation.Flagged | python/analysis/_threshold_evaluation.py:29 | a score at or above the threshold is flagged and a lower one is not |
| ThresholdEvaluation.CellCount | python/analysis/_threshold_evaluation.py:31-34 | a confusion cell holds no more rows than its label has, and a flagged cell no more than are flagged |
| ThresholdEvaluation.FlaggedCount | python/analysis/_threshold_evaluation.py:43 | no more rows are flagged than the table has |
| ThresholdEvaluation.ConfusionAt | python/analysis/_threshold_evaluation.py:31-34 | TP + FN is the number of rows labelled 1 and FP + TN the number labelled 0, at every threshold; TP + FP is at most the flagged count |
| ThresholdEvaluation.CellsSplitLabel | python/analysis/_threshold_evaluation.py:31-34 | the rows of a label split into its flagged cell and its unflagged cell |
| ThresholdEvaluation.FlaggedCellsWithinFlagged | python/analysis/_threshold_evaluation.py:29-43 | the flagged cells of labels 1 and 0 together hold at most the flagged rows |
| ThresholdEvaluation.ConfusionPartitionsRows | python/analysis/_threshold_evaluation.py:31-34 | TP + FP + FN + TN plus the rows whose label is not 0/1 is the row count |
| ThresholdEvaluation.FlaggedAreTruePlusFalsePositives | python/analysis/_threshold_evaluation.py:29-43 | the flagged count is TP + FP plus the flagged rows whose label is not 0/1 |
| ThresholdEvaluation.NoNonBinaryRows | python/analysis/_threshold_evaluation.py:11 | with 0/1 labels no row falls outside the four cells |
| ThresholdEvaluation.FlaggedCountMonotone | python/analysis/_threshold_evaluation.py:29-43 | raising the threshold never flags more rows and never finds more true positives |
| ThresholdEvaluation.AllFlaggedAtMinimum | python/analysis/_threshold_evaluation.py:29 | a threshold at or below every score flags every row, so FN is 0 |
| ThresholdEvaluation.Ratio | python/analysis/_threshold_evaluation.py:36-38 | a guarded rate is non-negative, at most 1 when the numerator is at most the denominator, and exactly 0.0 when the denominator is 0 |
| ThresholdEvaluation.RatioScalesBack | python/analysis/_threshold_evaluation.py:36-38 | with a positive denominator the rate times the denominator is the numerator |
| ThresholdEvaluation.RatioMonotone | python/analysis/_threshold_evaluation.py:37 | over a fixed denominator the rate grows with the numerator |
| ThresholdEvaluation.RatioExtremes | python/analysis/_threshold_evaluation.py:36-38 | a part over its whole is 0.0 exactly when the part is empty, and 1.0 exactly when it is the whole and not empty |
| ThresholdEvaluation.PrecisionAt | python/analysis/_threshold_evaluation.py:36 | precision lies in [0, 1]; with 0/1 labels it is TP over the flagged count; it is 0 exactly when TP is 0, and 1 exactly when TP > 0 and FP is 0 |
| ThresholdEvaluation.RecallAt | python/analysis/_threshold_evaluation.py:37 | recall is TP over the number of frauds, lies in [0, 1], is 0 exactly when TP is 0, and is 1 exactly when some fraud exists and FN is 0 |
| ThresholdEvaluation.FprAt | python/analysis/_threshold_evaluation.py:38 | FPR is FP over the number of non-frauds, lies in [0, 1], is 0 exactly when FP is 0, and is 1 exactly when some non-fraud exists and TN is 0 |
| ThresholdEvaluation.BaselineFraudRate | python/analysis/_threshold_evaluation.py:40 | the baseline is `NaN` exactly on an empty table; with 0/1 labels on a non-empty table it is frauds / rows |
| ThresholdEvaluation.Lift | python/analysis/_threshold_evaluation.py:41 | lift is defined exactly when the baseline is a number above 0 |
| ThresholdEvaluation.LiftScalesBack | python/analysis/_threshold_evaluation.py:41 | a defined lift times the baseline is the recall |
| ThresholdEvaluation.EvaluateThreshold | python/analysis/_threshold_evaluation.py:27-56 | the record's TP, FP, FN, TN are the confusion cells and `flagged_count` the flagged rows; the cells plus the non-0/1 rows cover the table; precision, recall, FPR and `fraud_rate_in_flagged` are the guarded ratios TP/(TP+FP), TP/(TP+FN), FP/(FP+TN), TP/flagged and lie in [0, 1]; `fraud_in_flagged` is TP; the baseline is the label mean and lift is recall over it, defined exactly when the baseline is above 0 |
| ThresholdEvaluation.BinaryLabelsEvaluation | python/analysis/_threshold_evaluation.py:31-49 | with 0/1 labels TP + FP + FN + TN is the row count, `flagged_count` is TP + FP, and `fraud_rate_in_flagged` is the precision |
| ThresholdEvaluation.LabelTotalIsFraudCount | python/analysis/_threshold_evaluation.py:40 | with 0/1 labels the label total is the fraud count |
| ThresholdEvaluation.LiftDefinedIffFraudPresent | python/analysis/_threshold_evaluation.py:40-41 | with 0/1 labels on a non-empty table lift is defined exactly when some fraud exists |
| ThresholdEvaluation.ExampleEvaluation | python/analysis/_threshold_evaluation.py:27-56 | scores 2, 4, 6 with labels 0, 1, 1 at threshold 4 give 2 flagged, TP 2, FP 0, FN 0, TN 1, precision 1, recall 1 |
| ThresholdEvaluation.EvaluateThresholds | python/analysis/_threshold_evaluation.py:72-78 | the `results` loop yields one evaluation per threshold, in the order given |
| ThresholdEvaluation.ThresholdMetricsTable | python/analysis/_threshold_evaluation.py:138-155 | the second loop's threshold, TP, FP, FN, TN, precision, recall and flagged agree with the evaluator's at every threshold |
| ThresholdEvaluation.EvaluationsMonotone | python/analysis/_threshold_evaluation.py:72-78 | over ascending thresholds, the flagged counts and recalls of the evaluations never rise |
| ThresholdEvaluation.FixedThresholdReport | python/analysis/_threshold_evaluation.py:72-155 | over `THRESHOLDS` = 3, 4, 5, 6: four evaluations in that order, a metrics table that agrees with them field by field, and flagged counts and recalls that never rise from one threshold to the next |
| ThresholdEvaluation.SweepThresholds | python/analysis/_threshold_evaluation.py:101 | the swept thresholds are the observed scores, each once, strictly ascending, and none is missing |
| ThresholdEvaluation.SortedScores | python/analysis/_threshold_evaluation.py:101 | any ascending, repeat-free arrangement of the distinct scores is strictly ascending, holds only observed scores, and holds every row's score |
| ThresholdEvaluation.AscendingIsTotalPreorder | python/analysis/_threshold_evaluation.py:101 | the ascending order of `np.sort` is a total preorder |
| ThresholdEvaluation.RecallMonotone | python/analysis/_threshold_evaluation.py:106-114 | recall never rises as the threshold rises |
| ThresholdEvaluation.RecallIsOneWhenAllFlagged | python/analysis/_threshold_evaluation.py:107-114 | when every row is flagged and some fraud exists, recall is 1 |
| ThresholdEvaluation.SweepStartsAtMinimum | python/analysis/_threshold_evaluation.py:101 | the first swept threshold is at most every score |
| ThresholdEvaluation.RecallIsOneAtMinimumScore | python/analysis/_threshold_evaluation.py:101-114 | at the lowest observed score recall is 1 whenever some fraud exists |
| ThresholdEvaluation.SweepRecalls | python/analysis/_threshold_evaluation.py:106-117 | a recall column taken at the swept thresholds is non-increasing and starts at 1 when some fraud exists |
| ThresholdEvaluation.PrecisionRecallAt | python/analysis/_threshold_evaluation.py:106-117 | the loop body yields precision and recall at each threshold, one pair per threshold, in order |
| ThresholdEvaluation.PrecisionRecallCurve | python/analysis/_threshold_evaluation.py:101-117 | thresholds are the sorted distinct scores; the precision and recall lists match them in length and value; recall is non-increasing and starts at 1 when some fraud exists |
| ThresholdEvaluation.Summarize | python/analysis/_threshold_evaluation.py:165-171 | an account's `tx_count` is its group size (at least 1), `total_score` its score sum, `fraud_tx_count` its label sum, `avg_score` is `total_score / tx_count`, and `max_score` bounds its scores and is one of them |
| ThresholdEvaluation.SummarizeAppendRow | python/analysis/_threshold_evaluation.py:167-171 | one more row adds one transaction, its score and its label to its own account's `tx_count`, `total_score` and `fraud_tx_count`, raises that account's `max_score` to its score if higher, and changes no other account |
| ThresholdEvaluation.FraudTxCountBounded | python/analysis/_threshold_evaluation.py:170-171 | with 0/1 labels 0 <= `fraud_tx_count` <= `tx_count` |
| ThresholdEvaluation.AccountSummaries | python/analysis/_threshold_evaluation.py:165-172 | one summary per destination account occurring, named in the order `unique()` lists the accounts, each that account's aggregate |
| ThresholdEvaluation.SummariesHaveDistinctNames | python/analysis/_threshold_evaluation.py:165 | distinct account summaries belong to distinct accounts |
| ThresholdEvaluation.AccountNamesCoverRows | python/analysis/_threshold_evaluation.py:165 | the account summaries carry distinct names and include every row's destination |
| ThresholdEvaluation.AccountTxCountsSumToRowCount | python/analysis/_threshold_evaluation.py:165-170 | every row lands in exactly one account: the `tx_count` column of the summaries adds up to the row count |
| ThresholdEvaluation.RanksAbove | python/analysis/_threshold_evaluation.py:173 | an account ranks above another only if its `max_score` is at least as high; a higher `max_score` always ranks above; on equal maxima the larger or equal `total_score` decides |
| ThresholdEvaluation.RanksAboveIsTotalPreorder | python/analysis/_threshold_evaluation.py:173 | the two-key descending order is a total preorder |
| ThresholdEvaluation.AccountRanking | python/analysis/_threshold_evaluation.py:173 | every account once, ordered by `max_score` and then `total_score`, both descending |
| ThresholdEvaluation.PrefixOfRanking | python/analysis/_threshold_evaluation.py:174 | each of the first n entries of a ranking ranks at least as high as every entry left out |
| ThresholdEvaluation.PrefixOfAccountRanking | python/analysis/_threshold_evaluation.py:173-174 | the first n entries of any ranking of every account have distinct names, stay in ranking order, are each their account's aggregate, and each rank at least as high as every account left out |
| ThresholdEvaluation.TopHighRiskAccounts | python/analysis/_threshold_evaluation.py:164-176 | `head(n)`: min(n, #accounts) rows with distinct `nameDest`, ordered by (max desc, total desc), each its account's aggregate, and each ranking at least as high as every account left out |
| ThresholdEvaluation.ExampleTieOnMaximum | python/analysis/_threshold_evaluation.py:173 | accounts A (5, 9) and B (9, 1) tie on maximum 9; A's total 14 beats B's 10, so A ranks above B and not the other way |
| ThresholdEvaluation.Top10 | python/analysis/_threshold_evaluation.py:174 | the saved table has at most ten rows |

## Left out

- Plotting is not modelled because it only renders: every matplotlib and seaborn call, the bar annotation loops (`plots.py` 106-111 and 160-162), and the Plot I and II sections.
- CSV reading and writing and all printing are I/O. The tables are parameters, and the results are return values.
- Quantiles and medians (`plots.py` 21-23, 177 and 201) use floating-point interpolation and are not modelled. The 95th-percentile mule-score threshold is a parameter of `Plots.HighRisk`. `log_amount` is not modelled either.
- Floating-point rounding is not modelled: rates are exact `real` divisions. IEEE infinities are not modelled, so a numeric cell is always finite.
- The display sort of the Plot V table (`plots.py` 149) only orders the bars, so `Plots.Breakdown` returns the four categories as named fields.
- The order among entries that tie on every sort key is not modelled; the contracts state only the key order. The single-key sorts at `plots.py` 63 and 95 use an unstable algorithm. The two-key sort at `_threshold_evaluation.py` 173 is stable, so accounts tied on both `max_score` and `total_score` keep the ascending `nameDest` order that `groupby` gives them; `ThresholdEvaluation.AccountRanking` does not state that tie order.
- `either_mismatch`, `origin_mismatch`, `dest_mismatch` and `both_mismatch` are read as given, because their derivation happens before these scripts. `Plots.EitherDecomposes` and `Plots.SideCountsBounded` state what holds when they agree with each other.
- The in-place overwrite of the input columns at `plots.py` 227-232 is not reproduced: `Plots.ScoreFrame` keeps the weighted terms in their own field. Re-running the section therefore gives the same scores, which the original would not.
- `Plots.TypeMismatchRatesAreProportions`, `Plots.StepMismatchRatesAreProportions`, `Plots.HighRiskCountsBounded`, `ThresholdEvaluation.FraudTxCountBounded` and `ThresholdEvaluation.BinaryLabelsEvaluation` assume 0/1 columns, because the code accepts any integer there. For other values their bounds do not hold.
- `ThresholdEvaluation.Top10` states only the size bound. The full contract is on `ThresholdEvaluation.TopHighRiskAccounts` with n = 10.
- Missing cells (NaN) in `plots.py` are not modelled: every flag is an integer, every key a string and every score a real. In pandas a group `mean` would skip a NaN value while `size` counts it, `groupby` would drop a row whose key is NaN, and `astype(int)` at `plots.py` 227-230 would raise on a NaN flag. The evaluation script fills its two numeric columns before use; a missing `nameDest` there is not modelled either, and `groupby` would leave that row out of the account table.
