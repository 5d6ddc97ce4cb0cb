# Ranking metrics evaluator and log filter, modelled in Dafny

This project models the information-retrieval evaluator of AutoGluon's
multimodal package, and proves what it computes.

The evaluator is the class `RankingMetrics` together with its batch wrapper
`compute_ranking_score`:

- **Construction.** `RankingMetrics` pairs every ground-truth query with its
  predicted relevance dictionary.
- **One query.** `_compute_one` sorts both dictionaries stably by score. It then
  walks the top `k` predictions, collects the ranks that hit a positive target,
  and derives precision, recall, MRR (mean reciprocal rank), a score-weighted
  MAP (mean average precision) and NDCG (normalised discounted cumulative
  gain) from those ranks.
- **All queries.** `compute` averages these 5-tuples over the queries and keeps
  the requested metric names, matched case-insensitively, under keys
  `"name@k"`.
- **Batch.** `compute_ranking_score` builds one table over several cutoffs,
  rounded to 5 digits.

A second, small part is `LogFilter`, the logging filter that suppresses every
message containing a blacklisted pattern.

Modules:

- `Wrappers` (`wrappers.dfy`): the `Option` and `Result` datatypes.
- `Judgments` (`judgments.dfy`): contains the following.
  - Relevance dictionaries. A Python dict keeps insertion order, so a
    dictionary is the sequence of its items in that order.
  - Their key set and lookup.
  - `sorted(d.items(), key=score, reverse=...)` as a stable insertion sort.
- `MetricKeys` (`metric_keys.dfy`): ASCII lower-casing and decimal printing.
  It also holds the `"name@k"` keys and their injectivity.
- `Rounding` (`rounding.dfy`): `round(x, 5)` on exact reals, with ties going to
  the even neighbour.
- `RankingSpec` (`ranking_spec.dfy`): what the evaluator computes, written as
  functions. These are the pairing done at construction, the hit ranks, the
  five metrics of one query, and their column sums and means. This module
  also holds the lemmas about them.
- `Ranking` (`ranking_metrics.dfy`): the evaluator itself, in imperative form.
  It contains:
  - the class `RankingMetrics`, with `Create` (its constructor),
    `ComputeOne`, `Compute` and `Mean`;
  - the walk and the arithmetic of `_compute_one`;
  - `compute_ranking_score` and its three loops.

  Every method's contract ties its result to a specification function:
  - `ComputeOne`, `Mean`, `HitWalk` and `ScoresFromHits` are proved equal to
    the `RankingSpec` functions `QueryScores`, `MeanScores`, `HitRanks` and
    `MetricsFromHits`;
  - the key sets of `SelectMetrics`, `Compute`, `DefaultTable`, `FillRow`,
    `FillTable` and `ComputeRankingScore` are given by the `Ranking`
    functions `ComputeKeys` and `BatchKeys`, and their values by
    `RankingSpec` functions;
  - `MergeCutoffs` is specified by the predicate `HoldsMeans` over
    `MeanScores`.
- `LogFilters` (`log_filter.dfy`): `LogFilter` and its `filter`.

Modelling choices:

- **Discount.** The DCG discount `1 / log2(r + 2)` is a parameter
  `discount: nat -> real`. Every statement holds for any discount that is
  positive and non-increasing (`ValidDiscount`).
- **Numbers.** Scores are `real`.
- **Dictionary order.** Both query corpora and every judgment set are
  sequences of pairs in insertion order. That order fixes the tie-breaks of
  the stable sort and the order of `results`.
- **Failing evaluations follow the code.** In three cases the code raises
  an exception:
  - a cutoff `k = 0` raises `ZeroDivisionError` at `count / k` (line 157);
  - a query without a positive target raises `ZeroDivisionError` at
    `count / num_pos_target` (line 158), before lines 172 and 173 are
    reached;
  - with no queries, `np.mean` of an empty list (lines 91-94) gives a
    scalar `nan`. Indexing it at line 99 then raises `IndexError`, but only
    when a supported name is requested.

  The model makes each of these a precondition (`k >= 1`, `Evaluable`,
  `|results| >= 1`). It defines no fallback values of 0.0, since the code
  has none.
- **Batch defaults follow the code.** `compute_ranking_score` gives a
  default 0.0 only to keys whose name lower-cases to ndcg, map, recall or
  precision. Other requested names get no key at all. Every default is
  overwritten by the rounded computed score, which `ComputeRankingScore`
  proves by stating every value of its result.
- **Construction makes no key-set check.** It checks only that the two
  corpora have equal length. Missing queries then fail at the first
  `pred[key]`. `AssembleOkIffSameQueries` shows that together these
  amount to "same query set" when each corpus has unique queries.

## Model

| member | source | states |
|---|---|---|
| Judgments.KeySet | multimodal/src/autogluon/multimodal/optim/metrics/ranking_metrics.py:64-66 | a key is in the key set iff some item of the dictionary carries it |
| Judgments.KeySetSize | multimodal/src/autogluon/multimodal/optim/metrics/ranking_metrics.py:59-66 | a dictionary with distinct keys has exactly as many keys as items |
| Judgments.Lookup | multimodal/src/autogluon/multimodal/optim/metrics/ranking_metrics.py:66 | a found value is stored under the key in the dictionary |
| Judgments.LookupDistinct | multimodal/src/autogluon/multimodal/optim/metrics/ranking_metrics.py:152 | in a dictionary, the lookup returns the one value stored under the key |
| Judgments.SameItemsSameLookup | multimodal/src/autogluon/multimodal/optim/metrics/ranking_metrics.py:124-130 | two dictionaries holding the same items answer every lookup alike |
| Judgments.CountPositive | multimodal/src/autogluon/multimodal/optim/metrics/ranking_metrics.py:143 | the number of positive scores is at most the number of items |
| Judgments.PositiveDocs | multimodal/src/autogluon/multimodal/optim/metrics/ranking_metrics.py:143 | every document with a positive score is in the set, which has at most `num_pos_target` members |
| Judgments.Insert | multimodal/src/autogluon/multimodal/optim/metrics/ranking_metrics.py:124-137 | inserting adds exactly one item: length + 1, multiset plus the item |
| Judgments.InsertKeepsOrdered | multimodal/src/autogluon/multimodal/optim/metrics/ranking_metrics.py:124-137 | inserting into a score-ordered list keeps it ordered |
| Judgments.SortByScore | multimodal/src/autogluon/multimodal/optim/metrics/ranking_metrics.py:124-137 | the sort returns a permutation of the items, same length and multiset, ordered non-increasing by score when `is_higher_better` and non-decreasing otherwise |
| Judgments.SortIsStable | multimodal/src/autogluon/multimodal/optim/metrics/ranking_metrics.py:124-137 | for every score, the items with that score keep their original relative order |
| Judgments.SortKeepsCountPositive | multimodal/src/autogluon/multimodal/optim/metrics/ranking_metrics.py:138-143 | counting the positive scores of the sorted target gives the same `num_pos_target` as the unsorted one |
| Judgments.SortKeepsDistinct | multimodal/src/autogluon/multimodal/optim/metrics/ranking_metrics.py:131-137 | the sorted items of a dictionary still have distinct keys |
| Judgments.SortKeepsLookup | multimodal/src/autogluon/multimodal/optim/metrics/ranking_metrics.py:121-152 | looking a document up in `sorted_target` gives what it gives in `target` |
| MetricKeys.Lower | multimodal/src/autogluon/multimodal/optim/metrics/ranking_metrics.py:97 | `lower()` keeps the length and leaves no ASCII capital in the name |
| MetricKeys.LowerOfLowercase | multimodal/src/autogluon/multimodal/optim/metrics/ranking_metrics.py:97-98 | `lower()` leaves a name without capitals unchanged |
| MetricKeys.Decimal | multimodal/src/autogluon/multimodal/optim/metrics/ranking_metrics.py:99 | `str(k)` is a non-empty string of decimal digits, with two or more exactly when `k >= 10` |
| MetricKeys.DecimalInjective | multimodal/src/autogluon/multimodal/optim/metrics/ranking_metrics.py:99 | different cutoffs print differently |
| MetricKeys.SameCutoffKeys | multimodal/src/autogluon/multimodal/optim/metrics/ranking_metrics.py:99 | at one cutoff, different names give different `"name@k"` keys |
| MetricKeys.Key | multimodal/src/autogluon/multimodal/optim/metrics/ranking_metrics.py:99 | the key `f"{metric}@{k}"`: the name, an '@' and the decimal cutoff; its properties are stated by `SameCutoffKeys` and `KeyInjective` |
| MetricKeys.KeyInjective | multimodal/src/autogluon/multimodal/optim/metrics/ranking_metrics.py:99 | a key `"name@k"` with no '@' in the name determines both the name and the cutoff |
| Rounding.Round5 | multimodal/src/autogluon/multimodal/optim/metrics/ranking_metrics.py:223-229 | `round(x, 5)` is a multiple of 10^-5 within half a unit of x |
| Rounding.Round5Unit | multimodal/src/autogluon/multimodal/optim/metrics/ranking_metrics.py:223-229 | rounding keeps a value in [0, 1] within [0, 1] |
| RankingSpec.Column | multimodal/src/autogluon/multimodal/optim/metrics/ranking_metrics.py:99 | `eval_res[self.supported_metrics[name]]`: the tuple entry at the position `supported_metrics` gives the name |
| RankingSpec.PairQueries | multimodal/src/autogluon/multimodal/optim/metrics/ranking_metrics.py:64-66 | a successful pairing has one entry per target query; a failure is a KeyError on a query that `pred` lacks |
| RankingSpec.Assemble | multimodal/src/autogluon/multimodal/optim/metrics/ranking_metrics.py:59-66 | construction fails with the count mismatch exactly when the lengths differ; success implies equal lengths and one entry per query |
| RankingSpec.PairQueriesSpec | multimodal/src/autogluon/multimodal/optim/metrics/ranking_metrics.py:64-66 | the pairing succeeds iff every target query is in `pred`; then entry i is target query i with `[target[key], pred[key]]`; otherwise the error names the first missing target query |
| RankingSpec.PairQueriesFailsEarly | multimodal/src/autogluon/multimodal/optim/metrics/ranking_metrics.py:65-66 | once one target query is missing, construction fails with that query, whatever follows |
| RankingSpec.AssembleOkIffSameQueries | multimodal/src/autogluon/multimodal/optim/metrics/ranking_metrics.py:59-66 | for corpora with unique queries, construction succeeds iff both have the same query set |
| RankingSpec.SortedTarget | multimodal/src/autogluon/multimodal/optim/metrics/ranking_metrics.py:124-130 | `sorted_target`: the target items sorted by `SortByScore`, a stable permutation in score order; `SortKeepsLookup`, `SortKeepsCountPositive` and `HitAgainstTarget` state what the sort preserves |
| RankingSpec.SortedPred | multimodal/src/autogluon/multimodal/optim/metrics/ranking_metrics.py:131-137 | `sorted_pred`: the predicted items sorted by `SortByScore`, a stable permutation in score order; `SortKeepsDistinct` keeps its documents unique |
| RankingSpec.IsHit | multimodal/src/autogluon/multimodal/optim/metrics/ranking_metrics.py:152 | `key in sorted_target and sorted_target[key] > 0`: a hit is always one of the target's documents |
| RankingSpec.NumPositive | multimodal/src/autogluon/multimodal/optim/metrics/ranking_metrics.py:143 | `num_pos_target` counted over the sorted target equals the count over the target, at most its size |
| RankingSpec.AtK | multimodal/src/autogluon/multimodal/optim/metrics/ranking_metrics.py:145 | `at_k` is the minimum of k and `num_pos_target`: at most both, and equal to one of them |
| RankingSpec.HitAgainstTarget | multimodal/src/autogluon/multimodal/optim/metrics/ranking_metrics.py:121-152 | a document hits in `sorted_target` exactly when `target[key]` exists and is positive |
| RankingSpec.HitRanks | multimodal/src/autogluon/multimodal/optim/metrics/ranking_metrics.py:147-154 | `hit_rank` has at most as many entries as predictions walked, each below that number |
| RankingSpec.HitRanksAreHits | multimodal/src/autogluon/multimodal/optim/metrics/ranking_metrics.py:151-153 | each hit rank names a prediction whose document has a positive target score |
| RankingSpec.HitRanksIncreasing | multimodal/src/autogluon/multimodal/optim/metrics/ranking_metrics.py:149-154 | the hit ranks are strictly increasing |
| RankingSpec.HitRanksComplete | multimodal/src/autogluon/multimodal/optim/metrics/ranking_metrics.py:151-153 | every walked prediction that hits a positive target is recorded |
| RankingSpec.Hits | multimodal/src/autogluon/multimodal/optim/metrics/ranking_metrics.py:147-154 | `hit_rank` of one query: `HitRanks` over the first `min(k, |pred|)` sorted predictions, which is the slice `[0:k]`; its properties are stated by `HitsWithinAtK`, `RecallMonotone` and `HitsAndReciprocalRank` |
| RankingSpec.HitCountBound | multimodal/src/autogluon/multimodal/optim/metrics/ranking_metrics.py:143-155 | hits name distinct positive targets, so `count <= num_pos_target` |
| RankingSpec.HitDocsSize | multimodal/src/autogluon/multimodal/optim/metrics/ranking_metrics.py:151-155 | the hit documents are as many as the hit ranks, because the prediction is a dictionary |
| RankingSpec.HitsWithinAtK | multimodal/src/autogluon/multimodal/optim/metrics/ranking_metrics.py:145-155 | `count <= at_k = min(k, num_pos_target)` |
| RankingSpec.DcgSum | multimodal/src/autogluon/multimodal/optim/metrics/ranking_metrics.py:167 | for a valid discount the DCG is non-negative, and positive exactly when there is a hit |
| RankingSpec.IdealDcg | multimodal/src/autogluon/multimodal/optim/metrics/ranking_metrics.py:170 | for a valid discount the ideal DCG is non-negative, and positive exactly when `at_k >= 1` |
| RankingSpec.PrecisionTerm | multimodal/src/autogluon/multimodal/optim/metrics/ranking_metrics.py:165 | a MAP term is non-negative when the predicted score is; `PrecisionTermBound` bounds it by 1 |
| RankingSpec.WeightedPrecisionSum | multimodal/src/autogluon/multimodal/optim/metrics/ranking_metrics.py:165 | the score-weighted precision sum before `mAP /= at_k`; bounded by `WeightedPrecisionSumBounds` |
| RankingSpec.MetricsFromHits | multimodal/src/autogluon/multimodal/optim/metrics/ranking_metrics.py:155-173 | the five metrics computed from the hit ranks; their properties are stated by `MetricsBounds`, `MetricsOfHits`, `MapBoundForUnitScores` and `PerfectMetrics` |
| RankingSpec.QueryScores | multimodal/src/autogluon/multimodal/optim/metrics/ranking_metrics.py:103-175 | the tuple `_compute_one` returns; `ComputeOne` is proved equal to it, and `QueryScoresBounds`, `HitsAndReciprocalRank`, `QueryMapBound`, `RecallMonotone` and `PerfectRanking` state its properties |
| RankingSpec.IdealDcgMonotone | multimodal/src/autogluon/multimodal/optim/metrics/ranking_metrics.py:170 | the ideal DCG is non-negative and grows with the number of terms |
| RankingSpec.IdealDcgPositive | multimodal/src/autogluon/multimodal/optim/metrics/ranking_metrics.py:170-172 | with `at_k >= 1` the ideal DCG is positive, so the NDCG division is defined |
| RankingSpec.DcgAtMostIdeal | multimodal/src/autogluon/multimodal/optim/metrics/ranking_metrics.py:167-172 | hit ranks no better than their positions give DCG at most the ideal DCG of as many hits |
| RankingSpec.MetricsBounds | multimodal/src/autogluon/multimodal/optim/metrics/ranking_metrics.py:155-172 | from the hit ranks, precision, recall, MRR and NDCG lie in [0, 1] |
| RankingSpec.QueryScoresBounds | multimodal/src/autogluon/multimodal/optim/metrics/ranking_metrics.py:120-175 | for every query, precision, recall, MRR and NDCG of `_compute_one` lie in [0, 1] |
| RankingSpec.MetricsOfHits | multimodal/src/autogluon/multimodal/optim/metrics/ranking_metrics.py:160-173 | without hits every metric is 0, and MRR is 0 only then; with hits MRR is `1/(hit_rank[0]+1)`, in (0, 1] |
| RankingSpec.HitsAndReciprocalRank | multimodal/src/autogluon/multimodal/optim/metrics/ranking_metrics.py:160-173 | the same for the metrics of a query |
| RankingSpec.WeightedPrecisionSumBounds | multimodal/src/autogluon/multimodal/optim/metrics/ranking_metrics.py:165 | with predicted scores in [0, 1], the weighted precision sum lies between 0 and the number of hits |
| RankingSpec.MapBoundForUnitScores | multimodal/src/autogluon/multimodal/optim/metrics/ranking_metrics.py:165-173 | MAP lies in [0, 1] when the predicted scores at the hits do |
| RankingSpec.QueryMapBound | multimodal/src/autogluon/multimodal/optim/metrics/ranking_metrics.py:131-173 | a query whose predicted scores lie in [0, 1] has MAP in [0, 1] |
| RankingSpec.HitRanksPrefix | multimodal/src/autogluon/multimodal/optim/metrics/ranking_metrics.py:147-154 | the hit list at a smaller cutoff is a prefix of the hit list at a larger one |
| RankingSpec.RecallMonotone | multimodal/src/autogluon/multimodal/optim/metrics/ranking_metrics.py:147-158 | a query's hit list only grows with k, and its recall never decreases |
| RankingSpec.PerfectMetrics | multimodal/src/autogluon/multimodal/optim/metrics/ranking_metrics.py:165-172 | when the first `at_k` ranks all hit, NDCG is 1, and recall is 1 when `at_k` equals the number of positives |
| RankingSpec.PerfectRanking | multimodal/src/autogluon/multimodal/optim/metrics/ranking_metrics.py:145-172 | for a query whose first `at_k` predictions all hit, NDCG is 1, and so is recall once k reaches the number of positive targets |
| RankingSpec.FirstRanksAllHit | multimodal/src/autogluon/multimodal/optim/metrics/ranking_metrics.py:149-154 | when the first n predictions all hit, `hit_rank` is 0, 1, ..., n-1 |
| RankingSpec.DcgOfFirstRanks | multimodal/src/autogluon/multimodal/optim/metrics/ranking_metrics.py:167-170 | the DCG of ranks 0..n-1 equals the ideal DCG of n |
| RankingSpec.SumScores | multimodal/src/autogluon/multimodal/optim/metrics/ranking_metrics.py:91-94 | the column sums of the per-query tuples; bounded by `SumScoresBounds` |
| RankingSpec.MeanScores | multimodal/src/autogluon/multimodal/optim/metrics/ranking_metrics.py:91-94 | `np.mean(..., axis=0)` as column sums over the query count; `Mean` is proved equal to it and `MeanScoresBounds` bounds it |
| RankingSpec.SumScoresStep | multimodal/src/autogluon/multimodal/optim/metrics/ranking_metrics.py:91-94 | the column sums of one more query add its tuple |
| RankingSpec.SumScoresBounds | multimodal/src/autogluon/multimodal/optim/metrics/ranking_metrics.py:91-94 | the column sums of precision, recall, MRR and NDCG lie between 0 and the number of queries |
| RankingSpec.MeanScoresBounds | multimodal/src/autogluon/multimodal/optim/metrics/ranking_metrics.py:91-94 | the averaged precision, recall, MRR and NDCG lie in [0, 1] |
| RankingSpec.SumRecallMonotone | multimodal/src/autogluon/multimodal/optim/metrics/ranking_metrics.py:91-158 | the summed recall never decreases as k grows |
| RankingSpec.MeanRecallMonotone | multimodal/src/autogluon/multimodal/optim/metrics/ranking_metrics.py:91-158 | the averaged recall never decreases as k grows |
| Ranking.RequestedNames | multimodal/src/autogluon/multimodal/optim/metrics/ranking_metrics.py:84-87 | the names `compute` goes through are never empty: None and [] mean all supported names, otherwise every name is one the caller gave |
| Ranking.ComputeKeys | multimodal/src/autogluon/multimodal/optim/metrics/ranking_metrics.py:96-99 | `compute` only ever reports keys `"name@k"` of supported names at the given cutoff |
| Ranking.BatchKeys | multimodal/src/autogluon/multimodal/optim/metrics/ranking_metrics.py:208-218 | the batch table only ever has keys `"name@k"` of ndcg, map, recall or precision at a given cutoff |
| Ranking.SingleNameKeys | multimodal/src/autogluon/multimodal/optim/metrics/ranking_metrics.py:84-99 | a single name is treated as a one-element list, and asks only for its own lower-cased key when it is supported |
| Ranking.UnknownNameDropped | multimodal/src/autogluon/multimodal/optim/metrics/ranking_metrics.py:96-99 | requesting a name that is not supported in any case adds no key |
| Ranking.SupportedNamesAreLowerCase | multimodal/src/autogluon/multimodal/optim/metrics/ranking_metrics.py:51-57 | the supported names are lower-case and contain no '@' |
| Ranking.AllSupportedKeys | multimodal/src/autogluon/multimodal/optim/metrics/ranking_metrics.py:86-99 | `metrics=None` and `metrics=[]` both ask for every metric, giving exactly one key per supported name |
| Ranking.RankingMetrics.constructor | multimodal/src/autogluon/multimodal/optim/metrics/ranking_metrics.py:47-49 | the object stores the paired results and `is_higher_better` |
| Ranking.RankingMetrics.Create | multimodal/src/autogluon/multimodal/optim/metrics/ranking_metrics.py:59-66 | construction fails exactly as the pairing does: length mismatch first, then the first missing target query; on success the results are the pairing |
| Ranking.RankingMetrics.ComputeOne | multimodal/src/autogluon/multimodal/optim/metrics/ranking_metrics.py:103-175 | the imperative per-query computation returns the metrics tuple of that query |
| Ranking.RankingMetrics.Compute | multimodal/src/autogluon/multimodal/optim/metrics/ranking_metrics.py:84-101 | the keys are exactly `"m@k"` for the requested names that lower-case to a supported name; each value is that metric's mean over all queries |
| Ranking.RankingMetrics.Mean | multimodal/src/autogluon/multimodal/optim/metrics/ranking_metrics.py:91-94 | the loop over all queries yields the column-wise mean of their tuples |
| Ranking.HitWalk | multimodal/src/autogluon/multimodal/optim/metrics/ranking_metrics.py:147-154 | the walk over the first k sorted predictions yields the hit ranks |
| Ranking.ScoresFromHits | multimodal/src/autogluon/multimodal/optim/metrics/ranking_metrics.py:155-175 | the arithmetic after the walk yields the five metrics of the hit ranks |
| Ranking.SelectMetrics | multimodal/src/autogluon/multimodal/optim/metrics/ranking_metrics.py:96-99 | the loop over the names yields exactly the supported lower-cased keys, each with its column |
| Ranking.ComputeRankingScore | multimodal/src/autogluon/multimodal/optim/metrics/ranking_metrics.py:178-231 | construction errors propagate; otherwise the keys are exactly `"m@k"` for each cutoff and each requested name lower-casing to ndcg, map, recall or precision, and each value is the rounded mean of that metric at that cutoff |
| Ranking.MergeCutoffs | multimodal/src/autogluon/multimodal/optim/metrics/ranking_metrics.py:203-206 | merging `compute(k=k)` over the cutoffs holds every supported metric's mean at each cutoff |
| Ranking.MergeStep | multimodal/src/autogluon/multimodal/optim/metrics/ranking_metrics.py:205-206 | merging one more cutoff's table keeps the earlier cutoffs' entries |
| Ranking.MeansCoverBatch | multimodal/src/autogluon/multimodal/optim/metrics/ranking_metrics.py:205-229 | every reported key is present in the merged scores, holding its mean |
| Ranking.DefaultTable | multimodal/src/autogluon/multimodal/optim/metrics/ranking_metrics.py:208-218 | the defaults pass creates exactly the reported keys, all 0.0 |
| Ranking.FillTable | multimodal/src/autogluon/multimodal/optim/metrics/ranking_metrics.py:220-229 | the rounding pass keeps the keys and sets each to the rounded merged score |
| Ranking.FillRow | multimodal/src/autogluon/multimodal/optim/metrics/ranking_metrics.py:221-229 | one cutoff's pass sets that cutoff's keys and leaves the others unchanged |
| Ranking.BatchValueBounds | multimodal/src/autogluon/multimodal/optim/metrics/ranking_metrics.py:220-229 | every rounded precision, recall and ndcg value of the batch table lies in [0, 1] |
| Ranking.MrrNeverReported | multimodal/src/autogluon/multimodal/optim/metrics/ranking_metrics.py:208-229 | `"mrr@k"` is never a key of the batch table, whatever names are requested |
| LogFilters.Contains | multimodal/src/autogluon/multimodal/utils/log.py:45 | the substring test is true iff the pattern occurs in the message at some offset |
| LogFilters.NewLogFilter | multimodal/src/autogluon/multimodal/utils/log.py:27-29 | a single pattern becomes the one-element blacklist, and a list is kept as given |
| LogFilters.NoneOccurs | multimodal/src/autogluon/multimodal/utils/log.py:45-46 | `all(pattern not in msg ...)` is true iff no pattern of the list occurs in the message |
| LogFilters.Filter | multimodal/src/autogluon/multimodal/utils/log.py:31-46 | a record passes iff no blacklisted pattern occurs in its message |
| LogFilters.SinglePatternIsList | multimodal/src/autogluon/multimodal/utils/log.py:27-29 | a filter built from one pattern behaves like one built from the list holding it, passing iff the pattern does not occur |
| LogFilters.EmptyBlacklistPasses | multimodal/src/autogluon/multimodal/utils/log.py:45-46 | an empty blacklist passes every message |
| LogFilters.FilterMonotone | multimodal/src/autogluon/multimodal/utils/log.py:45-46 | a larger blacklist passes no message the smaller one rejects |
| LogFilters.EmptyPatternRejects | multimodal/src/autogluon/multimodal/utils/log.py:45-46 | the empty pattern rejects every message |

## Left out

- The discount `1 / math.log(rank + 2, 2)` (lines 167 and 170) is not computed. It is the parameter `discount`, and only its positivity and monotonicity are used.
- Floating point is not modelled: scores, means and divisions are exact reals. This covers IEEE rounding of the sums, the summation order of `np.sum` and `np.mean`, and `round` acting on a binary double rather than on the exact value.
- Integer width is not relevant here: Python integers are unbounded, and so are Dafny's.
- `str.lower()` is modelled on ASCII letters only. Other Unicode case mappings are not modelled.
- Ranking.RankingMetrics.Compute: requires at least one query, `k >= 1` and a positive target in every query, because the code raises in each of those cases. With no queries and only unsupported names requested, the code returns an empty table without raising; the model does not cover that corner.
- Ranking.ComputeRankingScore: when construction succeeds, it requires cutoffs `>= 1`. When some cutoff is also given, it requires a non-empty corpus with a positive target in every query, for the same reasons. Construction errors are stated for every input.
- A MAP bound is proved only when the predicted scores at the hit ranks lie in [0, 1]. MAP weights each precision term by the predicted score (line 165), so with scores above 1 it can exceed 1, and with negative scores it can be negative.
- `k=None` in `compute` is not modelled. The cutoff is a natural number.
- Negative cutoffs are not modelled: `nat` excludes them. The code accepts a negative `k` without raising. Then `at_k = k`, line 157 gives a negative precision, `idcg` is the empty sum 0.0, and line 172 gives `inf` or `nan` with only a warning.
- The order of the keys in the returned tables is not modelled. `return_res` (line 89) and `metric_results` (line 208) are dicts whose insertion order callers can see: cutoff first, then request order. The model's `map<string, real>` keeps the key set and the values only.
- The default arguments are not modelled: `is_higher_better=True` (line 18), `k=10` (line 68) and `cutoffs=[5, 10, 20]` (line 182). Every caller in the model passes each argument explicitly.
- `record.msg` is modelled as a string. Non-string messages, and `logging`'s argument formatting, are not modelled.
- The package's `constants` module is not part of this model. `NDCG`, `MAP`, `RECALL` and `PRECISION` are taken to be the strings "ndcg", "map", "recall" and "precision", the keys of `supported_metrics`.
- The following parts of `log.py` are left out:
  - `add_log_filter`, `remove_log_filter` and `apply_log_filter` attach filters to global logging handlers;
  - the `on_fit_*` message templates format system information;
  - `get_gpu_message` queries the GPU.
- The tabular model wrappers and their tests are not modelled. They drive external libraries.
- `filter` changes neither the filter nor the record. The model states this implicitly: `Filter` is a function on values.
