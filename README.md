# Student performance predictor — a verified model

This project models the scoring core of a student-performance prediction
service in Dafny. There are two parts.

1. **The ensemble predictor.** The predictor takes a request: a dictionary of
   form fields, some missing, some `null`, some text. It first maps the
   request onto the trained feature row. Each mapped field is copied or
   defaulted, then label-encoded, then cast to an integer, then zero-filled.
   The predictor then runs every regressor and every classifier. A model that
   raises falls back to a score of 70.0, or to the vote `1` with
   probabilities `[0.33, 0.34, 0.33]`. The scores are averaged, the votes are
   decided by majority, and the probabilities are averaged column by column.
   The winning class is decoded to a level name. The response is then built:
   - the score range;
   - the per-model breakdown;
   - the insight block (strengths, weaknesses, opportunities, score
     interpretation, improvement potential, benchmark comparison, percentile);
   - the fixed feature-impact report;
   - the prioritised recommendations.

   Anything that raises along the way turns the whole response into a
   failure. The model names which failure it is, in the order the code meets
   them.
2. **The synthetic data generator.** It covers:
   - the split of the sample into high, average and low performer strata, including the negative-dimensions error numpy raises for a negative sample count;
   - the patterned feature columns: three clipped normal blocks, concatenated
     and shuffled;
   - the final score formula;
   - the four performance bins.

Modules:

| file | module | what it holds |
|---|---|---|
| `wrappers.dfy` | `Wrappers` | `Option`, `Result` |
| `numeric.dfy` | `Numeric` | truncation, round-half-even, `round(x, 1)`, clip, sum, mean, min and max of sequences |
| `values.dfy` | `Values` | request values (`Null`, `Num`, `Flag`, `Text`) and the `dict.get(key, default)` reading that fails on values a number cannot be compared with |
| `stable_sort.dfy` | `StableSort` | one stable sort by key (Python's `list.sort`/`sorted`), its sortedness, stability and uniqueness lemmas |
| `feature_mapper.dfy` | `FeatureMapper` | `preprocess_input` and `_get_balanced_default_value` |
| `ensemble.dfy` | `Ensemble` | the model loops, majority vote, probability averaging, confidence, score range, level decoding |
| `assessment.dfy` | `Assessment` | score interpretation, gap analysis, benchmarks, percentile estimate, improvement potential |
| `insights.dfy` | `Insights` | `_generate_insights` |
| `recommendations.dfy` | `Recommendations` | `_generate_recommendations` |
| `feature_impact.dfy` | `FeatureImpact` | `_analyze_feature_impact` |
| `predictor.dfy` | `Predictor` | `predict` |
| `data_generator.dfy` | `DataGenerator` | stratum sizes, `_generate_with_pattern`, `_calculate_strong_scores`, `_categorize_performance` |

Operations that change state step by step are methods, proved against the
function that specifies them:
- `Predictor.Predict` against `PredictOutcome`;
- `FeatureMapper.Preprocess` against `MapRequest`;
- `Ensemble.CollectScores` and `Ensemble.CollectVotes` against `Scores` and `Classifications`;
- `Insights.GenerateInsights` against `InsightsOf`;
- `Recommendations.GenerateRecommendations` against `Recommend`.

The shuffle works in place on an `array<real>`. The properties of the
specifying functions are then proved as lemmas.

Modelling choices:
- **Models.** A model is a total function from the feature row to `Option`.
  `None` stands for "the model raised".
- **Rounding.** Rounding is Python's round-half-even, computed on exact reals.
- **Uncomparable values.** A request value of `null` or text, compared with a
  number by the insight or recommendation rules, raises in the code. Here it
  makes the reading `None`.
- **Random draws.** The generator's normal draws and the shuffle's swap
  indices are parameters.

### Behaviour of the code that is easy to get wrong

- **Tie-breaking.** Ties in the majority vote go to the smallest label. The
  code takes `max(set(votes), key=votes.count)`, which walks the set in
  ascending order for small non-negative integers. Registration order does
  not decide it. See `Ensemble.MajorityVote`.
- **Fallback vote.** A classifier that raises votes 1, with the comment
  "# Default to Medium" (`backend/ml/predictor.py:248`). The level encoder is
  fitted on the level names, which it sorts: Excellent=0, High=1, Low=2,
  Medium=3. So the fallback vote decodes to `High`. See
  `Ensemble.FallbackVoteDecodesToHigh`.
- **Bin edges.** The performance bins are closed on the right, so 65.0 is
  `Low` and 75.0 is `Medium`. See `DataGenerator.EdgesBelongBelow`.
- **Percentile bands.** The bands of neighbouring levels overlap, for
  example 70 for both a `Medium` and a `High` 80.0. See
  `Assessment.PercentileBandsOverlap`.
- **Improvement target.** The target is not always above the score. Above
  95 it is 95, so the gain is negative. See
  `Assessment.TargetBelowScoreAbove95` and `Assessment.NegativeGainAt97`.
- **Zero regressors.** With no regressor the mean is `nan`, and nothing
  raises at that point. The failure comes later, when the percentile
  estimate converts `nan` to an integer. That is after the insight rules
  have read their fields.
- **One regressor.** With one regressor the response fails on the
  breakdown's second score.

## Model

| member | source | states |
|---|---|---|
| FeatureMapper.BalancedDefault | backend/ml/predictor.py:154-208 | a listed field gets its listed default, any other name 0 |
| FeatureMapper.EncodeLabel | backend/ml/predictor.py:128-137 | a known class encodes to its index in the encoder's classes, anything else to 0 |
| FeatureMapper.CastToInt | backend/ml/predictor.py:139-143 | `astype(int)` truncates numbers toward zero, maps booleans to 1/0, and fails exactly on text and null |
| FeatureMapper.Preprocess | backend/ml/predictor.py:58-153 | the copy-or-default, encode, cast, zero-fill and reorder steps compute `MapRequest` |
| FeatureMapper.FillFromTable | backend/ml/predictor.py:115-121 | the mapping loop builds the frame of copied-or-defaulted fields |
| FeatureMapper.EncodeCategoricals | backend/ml/predictor.py:126-137 | the encoding loop label-encodes the categorical columns that have an encoder |
| FeatureMapper.CastBinaryColumns | backend/ml/predictor.py:139-143 | the cast loop casts both binary columns or fails on the first that cannot be cast |
| FeatureMapper.ZeroFill | backend/ml/predictor.py:145-151 | every trained column is present, missing ones as 0, and the row follows the trained order |
| FeatureMapper.FieldTableDistinct | backend/ml/predictor.py:62-113 | no dataset name occurs twice in the field mapping, so no entry overwrites another |
| FeatureMapper.DefaultsCoverTable | backend/ml/predictor.py:154-208 | every mapped field has a listed default |
| FeatureMapper.PlainFieldCopiedOrDefaulted | backend/ml/predictor.py:117-121 | a plain column holds the request's non-null value, or the field's default |
| FeatureMapper.CategoricalFieldEncoded | backend/ml/predictor.py:126-137 | a categorical column holds the label code when an encoder exists, the raw value otherwise |
| FeatureMapper.BinaryFieldCast | backend/ml/predictor.py:139-143 | a binary column of a mapped row holds the integer cast of its field |
| FeatureMapper.UntrainedColumnZero | backend/ml/predictor.py:145-148 | a trained column that no request field feeds is 0 |
| FeatureMapper.GeneratorOnlyColumnsZero | backend/ml/predictor.py:145-148 | the generator's `academic_aptitude`, `peer_support` and `school_resources` columns always reach the models as 0 |
| FeatureMapper.MappingFailsOnlyOnTextBinary | backend/ml/predictor.py:58-153 | mapping fails if and only if `firstGeneration` or `transferStudent` is sent as text |
| FeatureMapper.CastBinaryFails | backend/ml/predictor.py:139-143 | the binary cast fails exactly when one of the two binary cells cannot be cast |
| FeatureMapper.EmptyRequestMaps | backend/ml/predictor.py:115-121 | a request with every field omitted maps |
| Ensemble.CollectScores | backend/ml/predictor.py:218-229 | each regressor contributes its prediction, or 70.0 when it raises, in registration order |
| Ensemble.CollectVotes | backend/ml/predictor.py:235-249 | each classifier contributes its vote and probabilities, or 1 and [0.33, 0.34, 0.33] when it raises |
| Ensemble.MajorityVote | backend/ml/predictor.py:252 | the chosen label was voted, no label has more votes, and among equally counted labels it is the smallest |
| Ensemble.BestAmong | backend/ml/predictor.py:252 | the most-voted label among the first k votes, smallest on ties |
| Ensemble.AverageProbabilities | backend/ml/predictor.py:253 | the column means exist exactly when all vectors have the same non-zero length, with that length |
| Ensemble.ColumnSumBounds | backend/ml/predictor.py:253 | a column sum of probabilities lies between 0 and the number of classifiers |
| Ensemble.ConfidenceIsProbability | backend/ml/predictor.py:253-254 | the confidence of probabilities in [0, 1] lies in [0, 1] |
| Ensemble.ConfidenceNotOfVotedClass | backend/ml/predictor.py:252-254 | the confidence is the top averaged probability, which can belong to a class other than the voted one |
| Ensemble.ScoreRangeBracketsMean | backend/ml/predictor.py:297-305 | the rounded minimum is at most the rounded mean, which is at most the rounded maximum, and the range is non-negative |
| Ensemble.AllRegressorsFail | backend/ml/predictor.py:227-232 | when every regressor raises, the mean is 70.0 and the range is [70.0, 70.0] |
| Ensemble.DecodeLevel | backend/ml/predictor.py:256-260 | a label within the encoder's classes decodes to that class name; any other label, or no encoder, gives `Medium` |
| Ensemble.FallbackVoteDecodesToHigh | backend/ml/predictor.py:248 | with the alphabetical level encoder the fallback vote 1 decodes to `High`, not `Medium` |
| Assessment.Interpret | backend/ml/predictor.py:420-431 | the interpretation is the highest band whose floor (90/80/70/60) the score reaches |
| Assessment.InterpretMonotone | backend/ml/predictor.py:420-431 | a higher score never gets a lower interpretation |
| Assessment.GapAnalysis | backend/ml/predictor.py:482-495 | each band holds exactly its interval of the gap: `SignificantlyAbove` at 10 or more, `Above` in [5, 10), `Meeting` in [0, 5), `SlightlyBelow` in [-5, 0), `Below` in [-10, -5), `SignificantlyBelow` under -10; so `Meeting` or better exactly when the gap is non-negative |
| Assessment.GapAnalysisMonotone | backend/ml/predictor.py:482-495 | a larger gap never gets a worse band, whatever the level |
| Assessment.Benchmark | backend/ml/predictor.py:406-407 | Low 55, Medium 70, High 85, Excellent 90, and 70 for any other level; so always between 55 and 90 |
| Assessment.MeetsBenchmarkIffNotBelow | backend/ml/predictor.py:406-415 | the comparison says the benchmark is met exactly when the score is at least the benchmark |
| Assessment.Percentile | backend/ml/predictor.py:497-505 | each level's estimate stays in its band (10-30, 40-70, 70-95, 90-99), and 50 for an unknown level |
| Assessment.PercentileMonotone | backend/ml/predictor.py:497-505 | within a level a higher score never gets a lower percentile |
| Assessment.PercentileIsClampedFloor | backend/ml/predictor.py:497-505 | the estimate is the level's linear line truncated and clamped to its band |
| Assessment.PercentileBandsOverlap | backend/ml/predictor.py:500-503 | neighbouring levels share percentiles, e.g. 70 for a `Medium` and a `High` 80.0 |
| Assessment.NextTarget | backend/ml/predictor.py:433-479 | Low under 60 targets 65, Low in [60, 70) 75, Medium under 75 80, Medium in [75, 85) 85, above the score in each of these rows; every other case targets min(95, score + 5) |
| Assessment.ImprovementPotential | backend/ml/predictor.py:433-479 | the target is the rounded next target and the gain is that target minus the score, rounded to one place |
| Assessment.ImprovementGainBounds | backend/ml/predictor.py:433-479 | the gain is non-negative in the keyed rows and at most 5 otherwise |
| Assessment.TargetBelowScoreAbove95 | backend/ml/predictor.py:471-479 | above 95 the target is 95, below the score, and the gain is not positive |
| Assessment.NegativeGainAt97 | backend/ml/predictor.py:471-479 | a `High` 97.0 gets a gain of -2.0 |
| Assessment.RoundedTargetAndGainDisagree | backend/ml/predictor.py:462-479 | the target is rounded to an integer but the gain is not: a `High` 80.3 gets target 85 and gain 5.0 |
| Insights.ReadProfile | backend/ml/predictor.py:318-325 | the seven readings succeed exactly when every field is absent or comparable, and each is the field's value or its default |
| Insights.EmptyRequestReadsDefaults | backend/ml/predictor.py:318-325 | an empty request reads 100, 6, 6, 7, 6, 7, 7 |
| Insights.GenerateFindings | backend/ml/predictor.py:327-395 | the appended findings are the strength, weakness and opportunity rules in source order, each list replaced by its fallback when empty |
| Insights.AppendCognitiveStrengths | backend/ml/predictor.py:327-339 | appends the cognitive strength findings in source order |
| Insights.AppendBehaviouralStrengths | backend/ml/predictor.py:341-352 | appends the behavioural strength findings in source order |
| Insights.AppendCognitiveWeaknesses | backend/ml/predictor.py:354-362 | appends the cognitive weakness findings in source order |
| Insights.AppendBehaviouralWeaknesses | backend/ml/predictor.py:364-375 | appends the behavioural weakness findings in source order |
| Insights.AppendOpportunities | backend/ml/predictor.py:377-385 | appends the opportunity rules that fire, in source order |
| Insights.OrElse | backend/ml/predictor.py:387-395 | the list is never empty, and it holds the fallback exactly when nothing fired |
| Insights.AtMostOneFindingPerTrait | backend/ml/predictor.py:327-375 | no trait gets two strengths or two weaknesses, even where two tiers exist |
| Insights.StrengthIffThreshold | backend/ml/predictor.py:327-352 | a trait is a strength exactly when its reading reaches the lower tier's threshold, and an upper-tier strength exactly when it reaches the upper one |
| Insights.WeaknessIffThreshold | backend/ml/predictor.py:354-375 | a trait is a weakness exactly when its reading is below its weakness threshold |
| Insights.NeverBothStrengthAndWeakness | backend/ml/predictor.py:327-375 | no trait is listed as both a strength and a weakness |
| Insights.FallbacksOnlyWhenNoRuleFired | backend/ml/predictor.py:387-395 | each fallback finding appears exactly when its list would otherwise be empty |
| Insights.CompareWithBenchmark | backend/ml/predictor.py:405-416 | the comparison reports the level as tier, the level's benchmark and percentile, the gap score − benchmark rounded to one decimal, and the band of the unrounded gap; it says "meeting or above" exactly when the score reaches the benchmark |
| Insights.InsightsOf | backend/ml/predictor.py:307-418 | the insight block interprets the unrounded score, uses the level's benchmark, and has three non-empty lists |
| Insights.GenerateInsights | backend/ml/predictor.py:307-418 | succeeds exactly when every read field is comparable, and then computes `InsightsOf` on the readings |
| Recommendations.ReadReadings | backend/ml/predictor.py:546-730 | the readings succeed exactly when every field the rules compare is absent or comparable, and then each reading is that field's number (a boolean as 1/0) or, when absent, its default: cognitive ability 100, working memory 6, … study hours 4.5 |
| Recommendations.GenerateRecommendations | backend/ml/predictor.py:546-793 | succeeds exactly when every read field is comparable, and then returns `Recommend`: the fired rules in source order, the fallback when none fired, stably sorted by priority |
| Recommendations.AppendCognitiveRecommendations | backend/ml/predictor.py:551-590 | appends the cognitive rules that fire, in source order |
| Recommendations.AppendStrategyRecommendations | backend/ml/predictor.py:592-631 | appends the learning-strategy rules that fire, in source order |
| Recommendations.AppendWellbeingRecommendations | backend/ml/predictor.py:633-685 | appends the wellbeing rules that fire, in source order |
| Recommendations.AppendSupportRecommendations | backend/ml/predictor.py:687-714 | appends the support rules that fire, in source order |
| Recommendations.AppendStudyRecommendation | backend/ml/predictor.py:716-740 | appends the study-time rule that fires, if any |
| Recommendations.AppendPerformanceRecommendation | backend/ml/predictor.py:741-775 | appends the level-specific rule that fires, if any |
| Recommendations.RecommendedIffFires | backend/ml/predictor.py:546-775 | a rule is recommended exactly when its condition holds |
| Recommendations.AlternativesExclusive | backend/ml/predictor.py:716-775 | the two study-time rules never both fire, and neither do two level-specific rules |
| Recommendations.FallbackOnlyWhenNothingFired | backend/ml/predictor.py:776-788 | the list is never empty and holds "maintain current habits" exactly when no rule fired |
| Recommendations.RecommendationsSortedAndStable | backend/ml/predictor.py:789-791 | the result is sorted high, medium, low, keeps source order within a priority, and is a permutation of the fired rules |
| Recommendations.AtMostOneStudyAndOnePerformance | backend/ml/predictor.py:716-775 | at most one study-time and one level-specific recommendation appear |
| Recommendations.FiredDistinct | backend/ml/predictor.py:546-775 | no rule is recommended twice |
| Recommendations.AllRulesComplete | backend/ml/predictor.py:546-788 | every rule of the source except the fallback is in the rule list |
| FeatureImpact.TotalOfBalancedImpacts | backend/ml/predictor.py:510-534 | the fifteen listed impacts sum to 112.3 |
| FeatureImpact.PercentagesSumTo100 | backend/ml/predictor.py:536-538 | the unrounded percentages of a table with a non-zero total sum to 100 |
| FeatureImpact.RoundedSharesNear | backend/ml/predictor.py:538 | after rounding to one place the shares sum to within 0.05 per entry of the unrounded sum |
| FeatureImpact.TopSharesDescending | backend/ml/predictor.py:541 | the report is ordered by share, largest first |
| FeatureImpact.TopSharesAreLargest | backend/ml/predictor.py:541 | the report is drawn from the table, and no entry left out has a larger share than one kept |
| FeatureImpact.TopNormalisedShares | backend/ml/predictor.py:536-541 | for any table with distinct factors, the report keeps them distinct, is in descending order, is drawn from the normalised table, and leaves out no larger share than one it keeps |
| FeatureImpact.NormaliseBalancedImpacts | backend/ml/predictor.py:536-538 | the normalised shares of the listed impacts, to one place |
| FeatureImpact.SortBalancedImpacts | backend/ml/predictor.py:541 | the normalised shares sorted in descending order |
| FeatureImpact.ReportIsRankedPrefix | backend/ml/predictor.py:507-543 | the report is the ten largest normalised shares, in order |
| FeatureImpact.BalancedReport | backend/ml/predictor.py:507-543 | the report's shares sum to 80.8, and all fifteen rounded shares sum to 99.9, not 100 |
| StableSort.SortBySorted | backend/ml/predictor.py:789-791 | the sort's output is ordered by the key |
| StableSort.SortByStable | backend/ml/predictor.py:789-791 | for every key value, the sort keeps the input order of the entries with that key |
| StableSort.StrictlySortedUnique | backend/ml/predictor.py:541 | two strictly ordered lists with the same length and members are equal |
| Predictor.Predict | backend/ml/predictor.py:209-295 | the step-by-step prediction returns `PredictOutcome` |
| Predictor.BuildResponse | backend/ml/predictor.py:262-282 | the insight, feature-impact, score-range, breakdown and recommendation steps return `Respond` |
| Predictor.PredictOutcomeStages | backend/ml/predictor.py:211-260 | a mapping failure or an aggregation failure stops the prediction; otherwise the response is built from the row's scores, averaged probabilities and level |
| Predictor.RespondFailures | backend/ml/predictor.py:262-282 | the response fails on the insight readings, then on no score (`nan` percentile), then on a missing second score, then on the recommendation readings, and succeeds otherwise |
| Predictor.PredictSucceedsIff | backend/ml/predictor.py:209-295 | prediction succeeds exactly when the request maps, the probabilities average, there are two or more regressors, and every compared field is comparable |
| Predictor.MappingFailureComesFirst | backend/ml/predictor.py:214-215 | an unmappable request fails with the mapping error whatever the models are |
| Predictor.RespondConsistent | backend/ml/predictor.py:262-282 | a response's score is the rounded mean and lies in its range, the breakdown repeats it, the confidence is the largest averaged probability as a percentage rounded to one decimal, insights get the unrounded mean and the level, and the feature report is the fixed ten entries |
| Predictor.PredictionConsistent | backend/ml/predictor.py:209-295 | the same consistency for `predict`'s successful response |
| Predictor.PerformanceLevelDecoded | backend/ml/predictor.py:256-260 | the reported level is a trained class name or `Medium` |
| Predictor.ConfidenceIsPercentage | backend/ml/predictor.py:253-271 | with probabilities in [0, 1] the reported confidence lies in [0, 100] |
| Predictor.AllRegressorsFailScore70 | backend/ml/predictor.py:227-232 | when every regressor raises, the reported score is 70.0 with range [70.0, 70.0] |
| Predictor.LaterFailuresMasked | backend/ml/predictor.py:262-282 | with comparable insight fields but uncomparable recommendation fields, zero, one and two-or-more regressors fail on the missing score, the second score and the recommendations respectively |
| DataGenerator.StrataOf | backend/ml/data_generator.py:18-20 | the strata are n/4, n/2 and n/4 truncated toward zero, so a negative count gives sizes −(−n/4), −(−n/2), −(−n/4) |
| DataGenerator.StrataRows | backend/ml/data_generator.py:18-20 | the strata cover n rows exactly when 4 divides n, and otherwise miss by 1 or 2 toward zero |
| DataGenerator.FrameRows | backend/ml/data_generator.py:22-112 | with no negative size, the frame is built exactly when the patterned columns have n rows like the plain ones |
| DataGenerator.BuildFrame | backend/ml/data_generator.py:12-112 | numpy's negative-dimensions error happens exactly for a negative count, at the first negative size drawn (high block, average block, then the first plain column); otherwise the frame check of `FrameRows` decides |
| DataGenerator.FrameBuiltIffDivisibleByFour | backend/ml/data_generator.py:12-112 | the dataset frame is built exactly when the sample count is non-negative and 4 divides it |
| DataGenerator.NegativeCountRefused | backend/ml/data_generator.py:18-20 | count −4, which 4 divides, gives strata −1, −2, −1 and fails at the first block with size −1 |
| DataGenerator.DefaultSampleSizeFails | backend/app.py:152-155 | the sample endpoint's default count 10 gives strata 2, 5, 2: 9 patterned rows against 10 |
| DataGenerator.CorrectedStrataOf | backend/ml/data_generator.py:18-20 | the corrected strata keep the high and average sizes and always cover n rows |
| DataGenerator.CorrectedFrameAlwaysBuilt | backend/ml/data_generator.py:18-112 | with corrected strata every non-negative count builds the frame, and the sizes agree with the code's when 4 divides n |
| DataGenerator.ClipAllInBand | backend/ml/data_generator.py:128-130 | clipped draws lie in the band, and draws already in the band are unchanged |
| DataGenerator.PatternBlocksInBands | backend/ml/data_generator.py:128-132 | each block's values lie in its band: 0.7-1.3, 0.6-1.4 and 0.5-1.5 times its centre |
| DataGenerator.ShuffleDown | backend/ml/data_generator.py:133 | the swaps at positions k−1 down to 1 keep the length and permute the input |
| DataGenerator.ShuffledPermutes | backend/ml/data_generator.py:133 | the shuffle permutes its input |
| DataGenerator.IdentitySwapsKeepOrder | backend/ml/data_generator.py:133 | with every swap index drawn as its own position, the shuffle leaves the order unchanged |
| DataGenerator.Shuffle | backend/ml/data_generator.py:133 | the in-place shuffle leaves the array holding `Shuffled` of its old contents |
| DataGenerator.GenerateWithPattern | backend/ml/data_generator.py:126-134 | the returned column is the shuffled concatenation of the three clipped blocks |
| DataGenerator.PatternColumn | backend/ml/data_generator.py:126-134 | the column has one value per performer, is a permutation of the blocks, and every value lies in one of the bands |
| DataGenerator.StrongScore | backend/ml/data_generator.py:136-178 | the score lies in [40, 98] |
| DataGenerator.BaseScoreFlat | backend/ml/data_generator.py:140-173 | the weighted impacts flatten to 70 plus fixed per-feature coefficients times the offsets |
| DataGenerator.StrongScoreMonotone | backend/ml/data_generator.py:136-178 | a student at least as strong on every scoring feature never scores lower under the same noise |
| DataGenerator.NeutralScore | backend/ml/data_generator.py:140-178 | a student at every centre has zero impact and scores 70.0 without noise |
| DataGenerator.NoiseShiftsScore | backend/ml/data_generator.py:173-178 | inside the clip range the score is the base score plus noise, to within rounding |
| DataGenerator.Categorize | backend/ml/data_generator.py:180-184 | each label holds exactly on its right-closed bin, with 0 included in `Low`, and no label outside [0, 100] |
| DataGenerator.EdgesBelongBelow | backend/ml/data_generator.py:180-184 | 65, 75 and 85 belong to the lower bin, and 0 to `Low` |
| DataGenerator.CategorizeMonotone | backend/ml/data_generator.py:180-184 | a higher score never gets a lower level |
| DataGenerator.EveryScoreLabelled | backend/ml/data_generator.py:178-184 | every generated score gets a level |

## Left out

- Model loading, pickled files, logging and `_convert_to_serializable` are left out. They do not change any value of the response.
- The trained models are opaque. Each regressor or classifier is an arbitrary function of the feature row that may raise.
- All randomness (`np.random.normal`, `randint`, `choice`, `poisson`, `shuffle`) becomes parameters. Only the shuffle, the clipped blocks and the score noise are modelled. The remaining generated columns are not.
- The generator's printing, `_analyze_features`, the timestamp column and the unmodelled feature columns are left out. They do not affect the score or the labels.
- Arithmetic is on exact reals. Binary floating-point effects in sums, means and `round` are left out.
- `nan` arithmetic is left out, except that zero regressors is a failure at the percentile step.
- Message and description strings are left out. Findings and recommendations are identified by their rule and the value they quote.
- FeatureMapper.CastToInt, FeatureMapper.MappingFailsOnlyOnTextBinary: numeric strings in the binary fields are treated like any other text, so they fail the cast. pandas would cast them, so "fails exactly on text" is stated for a cast that is stricter than pandas on strings such as "1".
- `Ensemble.MajorityVote`: the smallest label wins a tie. This matches CPython's set order for small non-negative integers only. For other labels the set order is left out.
- The predictor object is modelled as a value, because `predict` never changes it.
- `FeatureImpact.AnalyzeFeatureImpact` takes no arguments. The source's `student_data` and `processed_data` parameters are unused.
- `DataGenerator.StrongScore` is a function of one student. The column-wise pandas arithmetic is not modelled as such.

## Findings

| source | as written | input that shows it | evidently intended | confidence | as-written member | corrected member |
|---|---|---|---|---|---|---|
| backend/ml/data_generator.py:18-20 | the strata are `int(n*0.25)`, `int(n*0.5)` and `int(n*0.25)`, which cover n rows only when 4 divides n, while the other columns of the frame have n rows, so building the frame raises | n = 10, the sample endpoint's default (backend/app.py:152-155): strata 2, 5, 2 give 9 rows against 10 | the three strata always cover the sample, e.g. low = n − high − average | not executed | DataGenerator.FrameBuiltIffDivisibleByFour, DataGenerator.DefaultSampleSizeFails | DataGenerator.CorrectedStrataOf, DataGenerator.CorrectedFrameAlwaysBuilt |
