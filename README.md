# Elo rating engine: a verified model

This project models the rating engine of a pairwise-preference ranking
application, `src/lib/utils/eloRating.js`. Users compare two items (for
example dishes tagged with cuisine, ingredient and other category values).
The engine does five things:

- it computes the Elo expected score and the rating update after a comparison;
- it measures how similar two items are from their category values;
- it predicts a preference from the comparison history, blending Elo with
  outcomes of comparisons between similar items;
- it chooses the next pair to show, scoring every eligible pair of the
  filtered items and picking one of the best with adaptive randomness;
- it estimates how confident the current ranking is, from five weighted factors.

Modules, in dependency order:

| file | module | what it holds |
|---|---|---|
| `wrappers.dfy` | `Wrappers` | `Option`, for the source's `null`/`undefined` |
| `catalog.dfy` | `Catalog` | items, category values, comparison records, the list of category types |
| `sorting.dfy` | `Sorting` | a stable insertion sort by a numeric key, standing for `Array.prototype.sort` with a numeric comparator |
| `ratings.dfy` | `Ratings` | expected outcome, rating update, minimum comparisons, sort by rating |
| `similarity.dfy` | `CategoryMatch` | category similarity |
| `predictor.dfy` | `Predictor` | preference prediction |
| `random_indices.dfy` | `RandomIndices` | Fisher-Yates selection of distinct indices |
| `selector.dfy` | `PairSelector` | filtering, pair scoring, pair selection |
| `confidence.dfy` | `ConfidenceEstimator` | the five confidence factors and their weighted combination |

The source's pure computations are functions. Its loops are methods. These
are proved equal to the function that specifies them:

- `CalculateCategorySimilarity`
- `PredictPreference`
- `CountComparisons` and `FindPotentialPairs`
- `CompletedComparisons`, `BuildWinMap`, `CountViolations`,
  `EvaluatePredictions`, `MeasureCategoryCoverage` and `CalculateConfidence`

Two are specified differently:

- `GetRandomIndices` shuffles an `array` in place (`ShuffleInPlace`). It
  returns a prefix of `Shuffled`, the Fisher-Yates shuffle of 0..max-1
  driven by the draws. `ShuffledDistinct` proves every stage of that
  shuffle holds distinct indices in range.
- `SelectComparisonPair` is specified by relations. With a history and an
  eligible pair, it returns the pair of the ranked candidate that
  `PickIndex` names. In the random fallbacks it promises only two entries
  at distinct positions of the pool.

Some inputs cannot be computed in Dafny, so they are parameters:

- `Math.pow(10, x)` is a function of type `Ratings.Exp10`. It is any real
  function obeying the laws of a base-10 exponential.
- `Math.log2` is a `Ratings.Log2` function.
- The values `Math.random()` would produce are inputs: `rand` for the choice
  among the top pairs, and `draws` for the shuffle.

Ids are integers, and 0 stands for a missing or falsy id.

## Model

| member | source | states |
|---|---|---|
| Ratings.ExpectedOutcome | src/lib/utils/eloRating.js:7-9 | the expected score lies strictly between 0 and 1 |
| Ratings.ExpectedOutcomeEven | src/lib/utils/eloRating.js:7-9 | equal ratings give an expected score of exactly 1/2 |
| Ratings.ExpectedOutcomeComplement | src/lib/utils/eloRating.js:7-9 | E(a, b) + E(b, a) = 1 |
| Ratings.ExpectedOutcomeOrder | src/lib/utils/eloRating.js:7-9 | E(a, b) < 1/2 iff a is rated lower, and > 1/2 iff a is rated higher |
| Ratings.Round | src/lib/utils/eloRating.js:169-170 | `Math.round` as half-up rounding: the result is the integer n with x - 1/2 < n <= x + 1/2 |
| Ratings.DeltaA | src/lib/utils/eloRating.js:165-169 | A's change before rounding, K times A's actual minus expected score; `UpdateRatingsZeroSum` shows it cancels `DeltaB` |
| Ratings.DeltaB | src/lib/utils/eloRating.js:166-170 | B's change before rounding, from B's actual score 1 - actualA and expected score 1 - E(a, b); `UpdateRatingsRewardsWinner` gives its sign |
| Ratings.UpdateRatings | src/lib/utils/eloRating.js:164-176 | each new rating is within one half of the old rating plus K times (actual - expected); `UpdateRatingsZeroSum`, `UpdateRatingsRewardsWinner` and `UpdateRatingsSymmetric` carry its other properties |
| Ratings.RoundShift | src/lib/utils/eloRating.js:169-170 | `Math.round` commutes with adding an integer rating |
| Ratings.RoundNegation | src/lib/utils/eloRating.js:169-170 | rounding d and -d half-up sums to 0, or to 1 exactly when d ends in one half |
| Ratings.UpdateRatingsZeroSum | src/lib/utils/eloRating.js:164-176 | the unrounded changes cancel; for integer ratings the rounded changes sum to 0 or 1 |
| Ratings.RoundPastStart | src/lib/utils/eloRating.js:169-170 | rounding after a move of at least +1/2 (or below -1/2) lands strictly past the start |
| Ratings.UpdateRatingsRewardsWinner | src/lib/utils/eloRating.js:164-176 | with K > 1, a winner who was not the favourite gains rating and the loser loses rating |
| Ratings.UpdateRatingsSymmetric | src/lib/utils/eloRating.js:164-176 | updating from B's side with outcome 1 - a gives the same two new ratings, swapped |
| Ratings.Ceil | src/lib/utils/eloRating.js:419 | `Math.ceil(x)` is the least integer not below x |
| Ratings.MinComparisons | src/lib/utils/eloRating.js:414-420 | at least 1, and at least n for n >= 2 items |
| Ratings.SortItemsByRating | src/lib/utils/eloRating.js:426-428 | a permutation of the items, in non-increasing rating order |
| Sorting.Insert | src/lib/utils/eloRating.js:426-428 | inserting into a sorted sequence keeps it sorted and adds exactly the new element |
| Sorting.SortBy | src/lib/utils/eloRating.js:426-428 | the result is a permutation of the input, sorted by the key |
| Sorting.TwoPositions | src/lib/utils/eloRating.js:253-254 | the entries at two distinct positions form a sub-multiset of the sequence |
| Catalog.Recent | src/lib/utils/eloRating.js:285-286 | `slice(-k)`: the last min(k, n) records, in order |
| CategoryMatch.MatchCount | src/lib/utils/eloRating.js:40-44 | the number of A's values found in B is at most the number of A's values |
| CategoryMatch.Elems | src/lib/utils/eloRating.js:47 | the distinct values of a list, as the `Set` of the spread; `ElemsAppend` and `ElemsDistinctSize` give its union and its size |
| CategoryMatch.Matches | src/lib/utils/eloRating.js:28-44 | the match count summed over the category types that both items have; `MatchesAtMostTotals` bounds it by `Totals` |
| CategoryMatch.Totals | src/lib/utils/eloRating.js:28-48 | the distinct-value counts summed over the same types; `SelfMatchesTotals` shows it equals `Matches` for an item against itself |
| CategoryMatch.Similarity | src/lib/utils/eloRating.js:17-53 | the similarity ratio is never negative |
| CategoryMatch.CalculateCategorySimilarity | src/lib/utils/eloRating.js:17-53 | the loop over the category types computes `Similarity` |
| CategoryMatch.NoCommonType | src/lib/utils/eloRating.js:28-49 | with no category type present in both items, nothing is counted |
| CategoryMatch.SimilarityZero | src/lib/utils/eloRating.js:18-20 | a missing item or missing categories give similarity 0 |
| CategoryMatch.MatchCountDistinct | src/lib/utils/eloRating.js:40-44 | with duplicate-free values in A, the match count is the size of the intersection |
| CategoryMatch.ElemsAppend | src/lib/utils/eloRating.js:47 | the values of a concatenation are the union of the values |
| CategoryMatch.RatioAtMostOne | src/lib/utils/eloRating.js:51 | proof helper: a count over a positive total at least as large lies in [0, 1]; also used for the consistency and category-coverage ratios |
| CategoryMatch.SubsetSize | src/lib/utils/eloRating.js:47-48 | proof helper: a subset is no larger than its superset (for category values and for pair keys) |
| CategoryMatch.MatchCountAtMostUnion | src/lib/utils/eloRating.js:40-48 | per category type, matches never exceed the size of the union |
| CategoryMatch.MatchesAtMostTotals | src/lib/utils/eloRating.js:28-49 | summed over the types, matches never exceed the union sizes |
| CategoryMatch.SimilarityAtMostOne | src/lib/utils/eloRating.js:52 | when A repeats no value, similarity lies in [0, 1] |
| CategoryMatch.ElemsDistinctSize | src/lib/utils/eloRating.js:47-48 | a duplicate-free list has as many distinct values as entries |
| CategoryMatch.MatchCountSelf | src/lib/utils/eloRating.js:40-44 | every value of A found in B gives a match count of A's length |
| CategoryMatch.SelfMatchesTotals | src/lib/utils/eloRating.js:28-49 | an item compared with itself has as many matches as union entries |
| CategoryMatch.TotalsAtLeastType | src/lib/utils/eloRating.js:28-49 | the total union size is at least each type's union size |
| CategoryMatch.SelfSimilarity | src/lib/utils/eloRating.js:17-53 | an item that repeats no value and has some non-empty known category has similarity exactly 1 with itself |
| CategoryMatch.Restricted | src/lib/utils/eloRating.js:26-30 | restricting categories to the known types keeps only keys that are category types |
| CategoryMatch.AgreeingCategories | src/lib/utils/eloRating.js:28-49 | the counts depend only on the values of the listed types |
| CategoryMatch.SimilarityIgnoresOtherKeys | src/lib/utils/eloRating.js:26-30 | category keys outside the five known types do not affect similarity |
| CategoryMatch.MatchCountSymmetric | src/lib/utils/eloRating.js:40-44 | for duplicate-free lists, matches of A in B equal matches of B in A |
| CategoryMatch.SymmetricSums | src/lib/utils/eloRating.js:28-49 | summed over the types, matches and union sizes are symmetric |
| CategoryMatch.SimilaritySymmetric | src/lib/utils/eloRating.js:17-53 | for duplicate-free items, similarity(a, b) = similarity(b, a) |
| CategoryMatch.SimilarityWithRepeatsExceedsOne | src/lib/utils/eloRating.js:40-52 | the counting as written: an item listing "rice" twice scores 2 against an item whose value is "rice", and 1 the other way round, so similarity can exceed 1 and is not symmetric |
| Predictor.SimilarRecords | src/lib/utils/eloRating.js:85-98 | every kept record is similar to the pair and comes from the history, and at most as many records are kept as the history holds |
| Predictor.SimilarRecordsComplete | src/lib/utils/eloRating.js:85-98 | the converse: every similar record of the history is kept, so a record is kept iff it is in the history and similar |
| Predictor.IsSimilar | src/lib/utils/eloRating.js:86-97 | the filter test: a complete record whose four cross-similarities average above 0.3; `SimilarRecords` keeps exactly these records |
| Predictor.SameDirection | src/lib/utils/eloRating.js:114-117 | the direction test of a vote; `VoteAsComputed` and `Vote` connect it to `RecordVote` |
| Predictor.HistoricalOutcome | src/lib/utils/eloRating.js:120 | 1 when the record's A side won, else 0; `RecordVote` bounds the vote built from it |
| Predictor.PatternConfidence | src/lib/utils/eloRating.js:141 | the pattern weight `Math.min(0.8, n / 20)`; `PatternConfidenceRange` states its range |
| Predictor.PatternConfidenceRange | src/lib/utils/eloRating.js:141 | in [0, 0.8]: a twentieth per similar record below 16 records, and 0.8 from 16 on |
| Predictor.RecordVote | src/lib/utils/eloRating.js:114-133 | a record's weighted vote lies between 0 and its weight |
| Predictor.PatternTally | src/lib/utils/eloRating.js:109-134 | the weighted score total lies between 0 and the total weight |
| Predictor.PatternPrediction | src/lib/utils/eloRating.js:137 | the pattern prediction lies in [0, 1] |
| Predictor.Blend | src/lib/utils/eloRating.js:141-145 | the blended prediction lies between the Elo and pattern predictions |
| Predictor.ScaleDown | src/lib/utils/eloRating.js:141-145 | proof helper: a product of a value in [0, 1] and a non-negative scale lies between 0 and the scale |
| Predictor.BlendBetween | src/lib/utils/eloRating.js:141-145 | a convex combination lies between its two ends |
| Predictor.BlendConfidence | src/lib/utils/eloRating.js:148-152 | the blended confidence lies in [0.3, 0.9] |
| Predictor.Predict | src/lib/utils/eloRating.js:62-154 | the expected outcome lies in [0, 1] and the confidence in [0, 0.9] |
| Predictor.PredictPreference | src/lib/utils/eloRating.js:62-154 | the loops over the history compute `Predict` |
| Predictor.TallyPatterns | src/lib/utils/eloRating.js:109-134 | the `forEach` over the similar records accumulates exactly `PatternTally` |
| Predictor.Vote | src/lib/utils/eloRating.js:114-133 | the outcome read in the record's direction and its similarity weight give the record's vote `RecordVote` |
| Predictor.VoteAsComputed | src/lib/utils/eloRating.js:114-133 | proof helper: a record's vote is the outcome for A, read in the record's direction, weighted by its similarity |
| Predictor.PatternTallyStep | src/lib/utils/eloRating.js:109-134 | proof helper: the tally of one more record adds that record's vote |
| Predictor.PredictionFallbacks | src/lib/utils/eloRating.js:63-106 | a missing item gives (0.5, 0); fewer than 5 records, or fewer than 3 similar ones, give the Elo expectation with confidence 0.3 or 0.4 |
| Predictor.PredictionBlend | src/lib/utils/eloRating.js:101-152 | with 3 or more similar records, the prediction is the blend of Elo and the pattern with pattern weight in [0.15, 0.8], and confidence in [0.3, 0.9] |
| RandomIndices.SwapIndex | src/lib/utils/eloRating.js:401 | `Math.floor(r * (i + 1))` is a position in [0, i] |
| RandomIndices.Identity | src/lib/utils/eloRating.js:397 | the indices 0 to max - 1 in order, the shuffle's starting state |
| RandomIndices.Swap | src/lib/utils/eloRating.js:402 | exchanges two entries and leaves every other entry unchanged |
| RandomIndices.Shuffled | src/lib/utils/eloRating.js:397-403 | the array after each step of the Fisher-Yates loop, as a function of the draws; it keeps length max, and `ShuffledDistinct` proves each stage a permutation of 0..max-1 |
| RandomIndices.SwapKeepsDistinct | src/lib/utils/eloRating.js:402 | proof helper: swapping two entries keeps them pairwise distinct and in range |
| RandomIndices.ShuffledDistinct | src/lib/utils/eloRating.js:397-403 | every stage of the shuffle holds pairwise distinct indices in [0, max) |
| RandomIndices.ShuffledStep | src/lib/utils/eloRating.js:400-403 | proof helper: one more step swaps position max - t - 1 with its drawn partner |
| RandomIndices.PrefixDistinct | src/lib/utils/eloRating.js:406 | the first n entries of the complete shuffle are distinct indices in [0, max) |
| RandomIndices.ShuffleInPlace | src/lib/utils/eloRating.js:400-403 | the in-place loop leaves the array equal to the complete `Shuffled` |
| RandomIndices.GetRandomIndices | src/lib/utils/eloRating.js:377-407 | [0, 0] for a non-positive max or count; otherwise the first min(count, max) entries of the shuffle `Shuffled` driven by the draws, which are pairwise distinct indices in [0, max) |
| PairSelector.FilterItems | src/lib/utils/eloRating.js:210-248 | an item is kept iff it passes every active category filter; the result is a sub-multiset; `FilterItemsConcat` fixes the order and the repeats |
| PairSelector.FilterItemsConcat | src/lib/utils/eloRating.js:217-241 | filtering a concatenation is the concatenation of the filtered parts, so passing entries keep their order and their repeats |
| PairSelector.HasActiveFilters | src/lib/utils/eloRating.js:212-214 | some category type has a non-empty selection; `Pool` returns all items when none does |
| PairSelector.PassesFilters | src/lib/utils/eloRating.js:217-241 | the filter test, with the source's two exemptions (a type the item lacks, a selection that is empty); `FilterItems` keeps exactly the items passing it |
| PairSelector.Pool | src/lib/utils/eloRating.js:210-248 | all items when no filter is active or fewer than two pass; otherwise exactly the items that pass every active filter, in order; in every case a sub-multiset of the items |
| PairSelector.PositionsSnoc | src/lib/utils/eloRating.js:265-272 | one more record adds its position to the id's appearances on that side |
| PairSelector.Lookup | src/lib/utils/eloRating.js:266-271 | `comparisonCounts.get(id) || 0`: the stored count, 0 for an id not yet counted |
| PairSelector.Tally | src/lib/utils/eloRating.js:266-271 | counts one more appearance of a present side with a truthy id and leaves the map unchanged otherwise; `CountMapCounts` sums its effect |
| PairSelector.Positions | src/lib/utils/eloRating.js:265-272 | the positions of the history whose A (or B) side is the id; `PositionsSnoc` gives its growth |
| PairSelector.Appearances | src/lib/utils/eloRating.js:265-272 | the number of times an id appears on either side; `CountMapCounts` shows the counts map stores it |
| PairSelector.CountMap | src/lib/utils/eloRating.js:262-272 | the counts map after the loop; `CountMapCounts` proves each id's entry is its number of appearances |
| PairSelector.CountMapCounts | src/lib/utils/eloRating.js:262-272 | the counts map gives each id the number of records it appears in, on either side |
| PairSelector.LatestPairIsRecent | src/lib/utils/eloRating.js:285-293 | the last compared pair is recent in both orders, so it is never offered next |
| PairSelector.RecentlyCompared | src/lib/utils/eloRating.js:284-293 | the pair appears, in either order, in one of the last ten records; `LatestPairIsRecent` shows the last pair always does |
| PairSelector.Eligible | src/lib/utils/eloRating.js:280-295 | both ids truthy and not recently compared; `EnumerationExact` proves the candidates are exactly the eligible pairs |
| PairSelector.DivideByLarger | src/lib/utils/eloRating.js:301-306 | proof helper: dividing a positive number by a larger positive divisor gives a smaller positive result |
| PairSelector.ProximityScore | src/lib/utils/eloRating.js:301-302 | the rating-proximity score lies in (0, 100] |
| PairSelector.ProximityPrefersCloser | src/lib/utils/eloRating.js:301-302 | a smaller rating gap never scores lower, and a strictly smaller gap scores higher |
| PairSelector.CoverageScore | src/lib/utils/eloRating.js:305-307 | the comparison-count score lies in (0, 100] and is 100 for two new items |
| PairSelector.CoveragePrefersFewer | src/lib/utils/eloRating.js:305-307 | a pair whose more-compared item has fewer comparisons scores higher |
| PairSelector.Percent | src/lib/utils/eloRating.js:311-317 | proof helper: a product of two fractions, times 100, lies in [0, 100] |
| PairSelector.UncertaintyScore | src/lib/utils/eloRating.js:310-312 | in [0, 100]; 100 for an even, unconfident prediction; 0 for a certain one |
| PairSelector.InterestScore | src/lib/utils/eloRating.js:317 | in [0, 100]; 100 at similarity 1/2; 0 at similarity 0 or 1 |
| PairSelector.PhaseScore | src/lib/utils/eloRating.js:320-330 | in each phase the weighted score lies in [0, 100], is positive, and equals a common value of all four factors |
| PairSelector.Score | src/lib/utils/eloRating.js:299-330 | the weighted sum of the four factors; `ScoreBounds` bounds it and `TopIsBest` shows the first ranked candidate maximises it |
| PairSelector.ScoreBounds | src/lib/utils/eloRating.js:299-330 | every pair score lies in (0, 100] when item A repeats no category value |
| PairSelector.CandidateFor | src/lib/utils/eloRating.js:299-336 | the entry pushed for a pair: the pair, its score and its prediction; `ScorePair` computes it |
| PairSelector.Row | src/lib/utils/eloRating.js:276-339 | the candidates of one outer index, in order of the inner index; `RowSound` and `RowComplete` characterize it |
| PairSelector.Rows | src/lib/utils/eloRating.js:275-339 | the candidates of the first i outer indices; `RowsSound` and `RowsComplete` characterize it |
| PairSelector.Enumerate | src/lib/utils/eloRating.js:275-339 | `potentialPairs` before sorting; `EnumerationExact` shows it holds exactly the eligible pairs with their scores |
| PairSelector.Sound | src/lib/utils/eloRating.js:280-336 | a candidate of two entries at distinct positions, eligible and scored by `Score`; the soundness that `EnumerationExact` and `PickRanked` state |
| PairSelector.RowSound | src/lib/utils/eloRating.js:276-339 | each candidate in one row is an eligible pair of the sorted items, correctly scored |
| PairSelector.RowsSound | src/lib/utils/eloRating.js:275-339 | the same holds for all rows so far |
| PairSelector.RowComplete | src/lib/utils/eloRating.js:276-339 | every eligible partner within a row gets a candidate |
| PairSelector.RowsComplete | src/lib/utils/eloRating.js:275-339 | every eligible pair in the earlier rows gets a candidate |
| PairSelector.EnumerationExact | src/lib/utils/eloRating.js:275-339 | the candidates are exactly the eligible pairs (i < j, truthy ids, not recently compared), each with its score |
| PairSelector.Ranked | src/lib/utils/eloRating.js:349 | a permutation of the candidates in non-increasing score order |
| PairSelector.TopIsBest | src/lib/utils/eloRating.js:349 | the first ranked candidate scores at least as high as any eligible pair |
| PairSelector.AdaptiveRandomness | src/lib/utils/eloRating.js:353 | in [0.1, 0.9], and 0.1 from 40 comparisons on |
| PairSelector.PickIndex | src/lib/utils/eloRating.js:356-368 | the first candidate when rand < 1 - ar or only one exists; the second when 1 - ar <= rand < 1 - ar/2 and two or more exist; the third when rand >= 1 - ar/2 and three or more exist; otherwise the first |
| PairSelector.CountComparisons | src/lib/utils/eloRating.js:262-272 | the counting loop builds the map of per-id appearance counts |
| PairSelector.ScorePair | src/lib/utils/eloRating.js:299-336 | the four factors and their weighting compute the candidate `CandidateFor` |
| PairSelector.FindPotentialPairs | src/lib/utils/eloRating.js:275-339 | the nested loops build exactly the enumeration of eligible candidates |
| PairSelector.FilterForSelection | src/lib/utils/eloRating.js:210-248 | the filtering step yields exactly `Pool` |
| PairSelector.RandomPair | src/lib/utils/eloRating.js:253-254 | the two entries at the first two shuffled indices come from distinct positions of the items |
| PairSelector.PickRanked | src/lib/utils/eloRating.js:349-368 | the pick is the ranked candidate `PickIndex` names, and it is an eligible, correctly scored pair of the sorted items |
| PairSelector.SelectComparisonPair | src/lib/utils/eloRating.js:187-369 | no pair iff fewer than 2 items; otherwise two entries at distinct positions of the pool; with a history and an eligible pair, the ranked pick, which was not compared in the last ten records |
| ConfidenceEstimator.PairKeysSnoc | src/lib/utils/eloRating.js:445-451 | one more record adds at most its own pair key |
| ConfidenceEstimator.PairKey | src/lib/utils/eloRating.js:449 | the key of a record's pair, the same in either order; `RepeatAddsNothing` shows a repeat in either order adds no key |
| ConfidenceEstimator.PairKeys | src/lib/utils/eloRating.js:443-451 | the unordered id pairs of the history; `CompletedComparisons` computes it and `RepeatAddsNothing` shows a repeat adds nothing |
| ConfidenceEstimator.CompletedComparisons | src/lib/utils/eloRating.js:443-451 | the loop collects exactly the unordered id pairs of the history |
| ConfidenceEstimator.RepeatAddsNothing | src/lib/utils/eloRating.js:445-451 | repeating a comparison, in either order, adds no completed pair |
| ConfidenceEstimator.ComparisonCoverage | src/lib/utils/eloRating.js:441-454 | the coverage of possible comparisons is never negative; `ComparisonCoverageAtMostOne` gives the upper bound |
| ConfidenceEstimator.KeysWithSize | src/lib/utils/eloRating.js:442 | proof helper: one id pairs with at most n listed ids |
| ConfidenceEstimator.PossibleKeysSize | src/lib/utils/eloRating.js:442 | n listed items make at most n(n-1)/2 distinct pair keys, the source's `totalPossibleComparisons` |
| ConfidenceEstimator.PairKeysWithinPossible | src/lib/utils/eloRating.js:445-451 | a history that compares only different listed items uses only keys of listed pairs |
| ConfidenceEstimator.ComparisonCoverageAtMostOne | src/lib/utils/eloRating.js:441-454 | coverage is at most 1 when every compared pair is two listed items with different ids |
| ConfidenceEstimator.HalfShare | src/lib/utils/eloRating.js:454 | proof helper: p over half of a total that is at least 2p is at most 1 |
| ConfidenceEstimator.MinRating | src/lib/utils/eloRating.js:458 | `Math.min(...)`: a lower bound attained by some item |
| ConfidenceEstimator.MaxRating | src/lib/utils/eloRating.js:459 | `Math.max(...)`: an upper bound attained by some item |
| ConfidenceEstimator.RatingDistribution | src/lib/utils/eloRating.js:456-462 | in [0, 1]; 1 for a spread of 800 or more; 0 when all ratings are equal |
| ConfidenceEstimator.AddWin | src/lib/utils/eloRating.js:478-481 | recording a win adds exactly that winner-loser edge |
| ConfidenceEstimator.BuildWinGraph | src/lib/utils/eloRating.js:470-482 | the sequence of winners in insertion order holds exactly the keys of the win map |
| ConfidenceEstimator.WinGraphEdges | src/lib/utils/eloRating.js:470-482 | w beat l in the win map iff some record has winner w and loser l |
| ConfidenceEstimator.Cyclic | src/lib/utils/eloRating.js:488-501 | three ids that beat each other in a cycle; `CyclicIffUnclean` and `ConsistencyIffAcyclic` tie it to the loop's count |
| ConfidenceEstimator.ThirdLevel | src/lib/utils/eloRating.js:492-498 | violations never exceed checks |
| ConfidenceEstimator.SecondLevel | src/lib/utils/eloRating.js:489-500 | violations never exceed checks |
| ConfidenceEstimator.FirstLevel | src/lib/utils/eloRating.js:488-501 | violations never exceed checks |
| ConfidenceEstimator.ThirdLevelClean | src/lib/utils/eloRating.js:492-498 | no violation in the inner loop iff no beaten id beat back the winner |
| ConfidenceEstimator.SecondLevelClean | src/lib/utils/eloRating.js:489-500 | no violation in the middle loop iff no three-cycle through the winner |
| ConfidenceEstimator.CleanFirstSnoc | src/lib/utils/eloRating.js:488-501 | one more winner is clean iff the earlier ones are and its own lists are |
| ConfidenceEstimator.FirstLevelClean | src/lib/utils/eloRating.js:488-501 | no violation in the triple loop iff the win map has no three-cycle from any winner |
| ConfidenceEstimator.Consistency | src/lib/utils/eloRating.js:465-506 | the consistency score lies in [0, 1] |
| ConfidenceEstimator.CyclicIffUnclean | src/lib/utils/eloRating.js:488-501 | the win map has a three-cycle iff the triple loop's check fails somewhere |
| ConfidenceEstimator.ZeroRatio | src/lib/utils/eloRating.js:503-505 | proof helper: 1 - v/c equals 1 iff v = 0 |
| ConfidenceEstimator.ConsistencyIffAcyclic | src/lib/utils/eloRating.js:464-506 | consistency is 1 iff there are at most 5 records or the last 20 have no preference cycle of three |
| ConfidenceEstimator.BuildWinMap | src/lib/utils/eloRating.js:469-482 | the loop builds the win map `BuildWinGraph` |
| ConfidenceEstimator.CountChainChecks | src/lib/utils/eloRating.js:492-497 | the inner loop adds the checks and violations of `ThirdLevel` to the running counts |
| ConfidenceEstimator.CountLoserChecks | src/lib/utils/eloRating.js:489-499 | the middle loop adds the checks and violations of `SecondLevel` to the running counts |
| ConfidenceEstimator.CountViolations | src/lib/utils/eloRating.js:488-501 | the triple loop counts the checks and violations of `FirstLevel` |
| ConfidenceEstimator.ConsistencyScore | src/lib/utils/eloRating.js:465-506 | computes `Consistency` |
| ConfidenceEstimator.Outcomes | src/lib/utils/eloRating.js:515-530 | one outcome per tested record |
| ConfidenceEstimator.OutcomesAt | src/lib/utils/eloRating.js:515-530 | entry i says whether record lo + i was predicted correctly from the other records |
| ConfidenceEstimator.PredictedCorrectly | src/lib/utils/eloRating.js:515-529 | the leave-one-out test of one record; `OutcomesAt` and `PredictionHit` tie the accuracy loop to it |
| ConfidenceEstimator.Hit | src/lib/utils/eloRating.js:516-529 | a tested record that has both items and a winner and is predicted correctly; `CountTruePositions` and `PredictionHit` count it |
| ConfidenceEstimator.CountTrue | src/lib/utils/eloRating.js:513-530 | the hit count is at most the number of records tested |
| ConfidenceEstimator.CountTruePositions | src/lib/utils/eloRating.js:513-530 | the hit count is the number of positions predicted correctly |
| ConfidenceEstimator.Accuracy | src/lib/utils/eloRating.js:508-533 | in [0, 1]; with more than 10 records, the share of the last ten predicted correctly |
| ConfidenceEstimator.PredictionHit | src/lib/utils/eloRating.js:515-530 | the leave-one-out test of one record gives its `Hit` |
| ConfidenceEstimator.CountPrediction | src/lib/utils/eloRating.js:515-530 | testing one more record extends the count of hits by that record's outcome |
| ConfidenceEstimator.EvaluatePredictions | src/lib/utils/eloRating.js:508-533 | the leave-one-out loop computes `Accuracy` |
| ConfidenceEstimator.CategoryCoverage | src/lib/utils/eloRating.js:535-591 | the category coverage is never negative |
| ConfidenceEstimator.Seen | src/lib/utils/eloRating.js:547-567 | the values of one type among compared items; `CountComparedValues` computes it and `SeenWithinOffered` bounds it |
| ConfidenceEstimator.Offered | src/lib/utils/eloRating.js:571-581 | the values of one type among the items; `OfferedValues` computes it and `OfferedHas` shows it covers every listed item |
| ConfidenceEstimator.ValuesIn | src/lib/utils/eloRating.js:551-579 | the values of an item's truthy entry for one type, a single value read as a one-element list; `OfferedHas` puts them among the offered values |
| ConfidenceEstimator.SeenTotal | src/lib/utils/eloRating.js:586-588 | `comparedCategories`, summed over the types; `SeenTotalWithinOffered` bounds it by `OfferedTotal` |
| ConfidenceEstimator.OfferedTotal | src/lib/utils/eloRating.js:570-584 | `totalUniqueCategories`, summed over the types; `CountOfferedValues` computes it |
| ConfidenceEstimator.OfferedHas | src/lib/utils/eloRating.js:573-581 | a listed item's values are among the offered values |
| ConfidenceEstimator.SeenWithinOffered | src/lib/utils/eloRating.js:547-584 | when the history compares listed items, every compared value of a type is offered |
| ConfidenceEstimator.SeenTotalWithinOffered | src/lib/utils/eloRating.js:570-588 | the same holds for the totals over all types |
| ConfidenceEstimator.CategoryCoverageAtMostOne | src/lib/utils/eloRating.js:570-590 | category coverage is at most 1 when the history compares listed items |
| ConfidenceEstimator.AddComparedValues | src/lib/utils/eloRating.js:550-566 | adds both items' values of each type to that type's set of compared values |
| ConfidenceEstimator.CountComparedValues | src/lib/utils/eloRating.js:539-567 | each type's set holds exactly the values compared in the history |
| ConfidenceEstimator.CountsSeenSnoc | src/lib/utils/eloRating.js:547-567 | adding a record's values when both its items are present keeps each type's set equal to the values seen so far |
| ConfidenceEstimator.OfferedValues | src/lib/utils/eloRating.js:571-581 | the `Set` built over the items holds exactly the values of that type they offer |
| ConfidenceEstimator.CountOfferedValues | src/lib/utils/eloRating.js:570-584 | the `reduce` sums exactly the offered-value counts `OfferedTotal` over the given types |
| ConfidenceEstimator.CountSeenValues | src/lib/utils/eloRating.js:586-588 | counts the distinct compared values over all types |
| ConfidenceEstimator.MeasureCategoryCoverage | src/lib/utils/eloRating.js:535-591 | computes `CategoryCoverage` |
| ConfidenceEstimator.Combine | src/lib/utils/eloRating.js:593-621 | all factors 1 give 1; non-negative factors give a non-negative result, in each weighting phase |
| ConfidenceEstimator.Confidence | src/lib/utils/eloRating.js:436-625 | in [0, 1]; 0 for fewer than 2 items or an empty history |
| ConfidenceEstimator.EarlyConfidenceFloor | src/lib/utils/eloRating.js:596-602 | with 1 to 5 comparisons of 2 or more items, confidence is at least 0.3 |
| ConfidenceEstimator.CalculateConfidence | src/lib/utils/eloRating.js:436-625 | computes `Confidence` |

## Left out

- Console logging (`console.log`, `console.warn`, `console.error`) is output only and is not modelled.
- Run-time type checks (`typeof`, `Array.isArray`) and non-array arguments: the model's arguments are typed sequences, records and maps.
- `null` entries inside the items array are not modelled. Items and sides of a record are `Option`s where the source tests them.
- `null` records inside the history are not modelled: every record is a value. The source skips them at lines 289 and 446, and throws on them at lines 266 and 548.
- IEEE 754 floating point (rounding, NaN, infinities) is not modelled: ratings, scores and ratios are exact reals.
- `Math.pow(10, x)` and `Math.log2` are parameters constrained only by the laws the proofs use. Exp10 is only non-strictly monotone, and Log2 only satisfies log2(2) = 1 and monotonicity.
- `Math.random()` is replaced by the inputs `rand` and `draws`. `SelectComparisonPair` and `GetRandomIndices` require at least `max - 1` valid draws, the number of swaps the shuffle makes.
- Pair keys built as sorted `"idA-idB"` strings are modelled as two-element id sets. String collisions between ids containing `-`, and keys built from undefined ids, are not modelled. The id 0 stands for every falsy id.
- The record-identity test `c !== comp` in the accuracy loop is modelled as exclusion by position, so a single record object listed twice in the history is not captured.
- The insertion order of a JavaScript `Map` or `Set` is modelled only where it is observed: the win map keeps a sequence of winners, and the other sets are unordered.
- The stability of `Array.prototype.sort` is not part of any contract. The model sorts stably, but only sortedness and permutation are proved.
- Ratings.UpdateRatingsRewardsWinner: requires K > 1 (the default K is 32), because with K <= 1 the rounded change can be zero.
- `selectedCategories` entries that are not arrays are not modelled: each selection is a sequence of strings.
- Default arguments are not modelled: `comparisonHistory = []` (lines 62, 187 and 436), `kFactor = 32` (line 164), `options = {}` with `prioritizeCloseRatings = true` and `selectedCategories = {}` (lines 187 and 205-208). Every such argument is an explicit parameter or `Options` field, and a caller passes the default value itself.
- ConfidenceEstimator.ComparisonCoverage: its own contract states only c >= 0. The upper bound 1 is `ComparisonCoverageAtMostOne`, which requires every compared pair to be two listed items with different ids. A history of other items, or one that compares an item with itself, can push the share past 1.
- The candidate's `prediction` field is fixed by `CandidateFor` (`Sound`, `PickRanked`), but the selection reads only the pair and the score, so no property of the prediction is stated beyond that.
- A record whose winner has no id (its `winMap` key would be `undefined`) is modelled with winner id 0.
- CategoryMatch.SimilaritySymmetric: requires both items to repeat no value in a category list, because the source's counting is not symmetric when a list has repeats (see `CategoryMatch.SimilarityWithRepeatsExceedsOne`).
- CategoryMatch.SimilarityAtMostOne: requires item A to repeat no category value, because with repeats the ratio can exceed 1.
- PairSelector.ScoreBounds: requires item A to repeat no category value, for the same reason: the interest factor is bounded only when similarity is at most 1.
- ConfidenceEstimator.CategoryCoverageAtMostOne: requires every compared item to be in the item list, because the source divides by the values offered by the listed items only.
