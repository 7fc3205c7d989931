# Product recommendation engine, modelled in Dafny

This project models the core of a product recommendation service. The service
holds a product catalog and answers a user's preferences in four stages:

1. **Filter.** Keep the products that meet every stated hard constraint: exact
   category, price within the budget, and an experience tag allowed by the
   cumulative level map (`iniciante` ⊂ `intermediário` ⊂ `avançado`).
2. **Score.** Add up independent points per candidate:
   - category +10;
   - +5 per matching preference tag;
   - price range +8 inside the range, or +4 up to 1.2 × its maximum;
   - experience level +6;
   - budget +3.
3. **Rank.** Sort highest score first, breaking ties by catalog position. Then
   return the top product (or no match) in single mode, or the first `limit`
   products in multiple mode.
4. **Aggregate.** Compute count, mean price, distinct categories in
   first-occurrence order, and the lowest and highest price.

Files:

- `catalog.dfy`: the data model (products, preferences, scored products,
  mode, result, statistics), JavaScript truthiness of the optional fields, and
  the experience map.
- `filter.dfy`: the filter stage as a pure function, with its lemmas.
- `scoring.dfy`: the score as a sum of five term functions, and
  `CalculateProductScore`, the running-total method, proved equal to that sum.
- `ranking.dfy`: `findIndex`, the comparator, and an in-place insertion sort
  on an array. It is proved to yield a ranked permutation of the scored
  candidates, and the ranked order is proved unique.
- `service.dfy`: the `RecommendationService` class. Its `products` field is
  the catalog, and `GetRecommendations` runs the pipeline on it.
- `stats.dfy`: the statistics, as functions with lemmas.
- `examples.dfy`: the unit tests' concrete cases, stated over the model.

Prices are exact `real`s, so `max * 1.2` and the mean involve no rounding.
An optional category or experience level that is the empty string counts as
absent, and so does a budget of zero, as they do in JavaScript. An absent list
of preference tags is the empty sequence; the source treats both alike.

Where the unit tests and the code disagree, the model follows the code.
The filter tests at `src/__tests__/recommendation.service.test.js:135-149`
expect 2 products for a budget of 150 and 1 product for `avançado`. On the
mock catalog the code keeps 1 product (only the price 99 is ≤ 150) and 3
products (`avançado` allows all three levels). `Examples.FilterExamples`
proves these values.

## Model

| member | source | states |
|---|---|---|
| `Catalog.AllowedLevels` | frontend/src/recommendation.service.js:102-108 | a known level allows exactly the known levels up to and including itself, lowest first; any other level (not named like an `Object.prototype` property) allows none |
| `Catalog.AllowedLevelsCumulative` | frontend/src/recommendation.service.js:63-69 | each known level allows every level a lower one allows; level k allows exactly k+1 levels |
| `Catalog.MatchesExperienceMonotone` | frontend/src/recommendation.service.js:62-72 | a product that matches a lower experience level matches every higher one |
| `Catalog.UnknownLevelMatchesNothing` | frontend/src/recommendation.service.js:69-70 | a level outside the three known ones, not named like an `Object.prototype` property, falls back to the empty list and matches no product |
| `Filter.FilterIgnoresTagsAndPriceRange` | frontend/src/recommendation.service.js:89-115 | changing the preference tags or the price range never changes whether a product passes the filter |
| `Filter.FilterIsConjunctionOfDimensions` | frontend/src/recommendation.service.js:89-115 | a product passes exactly when it passes the category, budget and level checks each on its own |
| `Filter.FilterProducts` | frontend/src/recommendation.service.js:88-116 | every kept product is in the catalog and passes all stated constraints; a catalog product is kept exactly when it passes |
| `Filter.FilterIsSubsequence` | frontend/src/recommendation.service.js:89 | the candidates are a subsequence of the catalog, in catalog order |
| `Filter.FilterMultiplicity` | frontend/src/recommendation.service.js:89-115 | a passing product is kept as many times as the catalog holds it; a failing one is dropped |
| `Filter.FilterKeepsAllWhenNothingFails` | frontend/src/recommendation.service.js:114 | when every product passes, the result is the whole catalog |
| `Filter.EmptyPreferencesKeepAll` | frontend/src/recommendation.service.js:91-114 | empty preferences return the whole catalog |
| `Filter.UnknownLevelFiltersAll` | frontend/src/recommendation.service.js:101-112 | a non-empty level outside the three known ones, not named like an `Object.prototype` property, rejects every product |
| `Filter.HigherLevelKeepsCandidates` | frontend/src/recommendation.service.js:101-112 | raising the experience level, all else equal, keeps every candidate |
| `Scoring.MatchingTags` | frontend/src/recommendation.service.js:45-47 | the matching tags are preference tags that the product carries, and there are at most as many as preference tags |
| `Scoring.MatchingTagsMultiplicity` | frontend/src/recommendation.service.js:45-48 | each preference tag the product carries is counted as often as the preferences repeat it; no other tag is counted |
| `Scoring.Score` | frontend/src/recommendation.service.js:35-81 | the score is between 0 and 27 + 5 × the number of preference tags |
| `Scoring.CalculateProductScore` | frontend/src/recommendation.service.js:35-81 | the running total equals the sum of the five independent terms, and lies between 0 and 27 + 5 × the number of preference tags |
| `Scoring.PriceRangeTermCases` | frontend/src/recommendation.service.js:52-59 | the price-range term is 8, 4 or 0: 8 exactly inside [min, max]; 4 exactly when outside it but ≤ 1.2 × max, which includes prices below min; otherwise 0 |
| `Scoring.MatchingTagsAppend` | frontend/src/recommendation.service.js:45-47 | matching a concatenation of preference tags gives the concatenation of the matches |
| `Scoring.MoreTagsNeverLowerScore` | frontend/src/recommendation.service.js:44-49 | appending preference tags raises the score by exactly 5 per added match, so it never lowers it |
| `Scoring.OnlyTagTermDependsOnTags` | frontend/src/recommendation.service.js:38-78 | changing the preference tags changes only the tag term of the score |
| `Scoring.ScoreIsSumOfDimensions` | frontend/src/recommendation.service.js:35-81 | the score equals the sum of the scores that each dimension earns alone |
| `Scoring.CandidateEarnsFilteredTerms` | frontend/src/recommendation.service.js:39-78 | a candidate that passed the filter earns +10, +3 and +6 for each of category, budget and level that is stated |
| `Scoring.ExperiencePointsCumulative` | frontend/src/recommendation.service.js:62-73 | a product that earns +6 at one level earns it at every higher level |
| `Scoring.UnknownLevelEarnsNothing` | frontend/src/recommendation.service.js:69-72 | a level outside the three known ones, not named like an `Object.prototype` property, never gives +6 |
| `Ranking.IndexOf` | frontend/src/recommendation.service.js:148-149 | `findIndex` by id: the first position holding the id, or -1 when no product has it |
| `Ranking.RanksBefore` | frontend/src/recommendation.service.js:146-152 | x may precede y exactly when the second comparator is not positive on (x, y); when it may not, y strictly precedes x |
| `Ranking.ScoreAll` | frontend/src/recommendation.service.js:134-137 | one scored product per candidate, in order, each carrying its product unchanged and that product's score |
| `Ranking.IndexOfIsPosition` | frontend/src/recommendation.service.js:148-149 | with unique ids, the tie-break key of a catalog product is its catalog position |
| `Ranking.SortByRank` | frontend/src/recommendation.service.js:140-153 | the sorted array is ranked (scores non-increasing, ties in catalog order) and is a permutation of the input array |
| `Ranking.RankCandidates` | frontend/src/recommendation.service.js:134-153 | the result is a ranked permutation of the candidates, each with its score added |
| `Ranking.RankedHeadIsBest` | frontend/src/recommendation.service.js:155-156 | the head of a ranked list ranks before every element, so it has the highest score |
| `Ranking.RankedPrefixIsTop` | frontend/src/recommendation.service.js:157-158 | a prefix of a ranked list is ranked, is drawn from the list, and ranks before every element left out |
| `Ranking.CandidateKeysDistinct` | frontend/src/recommendation.service.js:146-152 | with unique ids, no two distinct scored candidates tie on both score and catalog position |
| `Ranking.RankedIsUnique` | frontend/src/recommendation.service.js:146-152 | two ranked arrangements of the same elements with distinct keys are equal |
| `Ranking.RankingIsDeterministic` | frontend/src/recommendation.service.js:139-153 | with unique ids, every ranked permutation of the scored candidates is the same list |
| `Service.SliceEnd` | frontend/src/recommendation.service.js:158 | the end index of `slice(0, limit)` is at most the length, and equals `min(limit, length)` for a non-negative limit |
| `Service.RecommendationService.constructor` | frontend/src/recommendation.service.js:7-9 | a new service has an empty catalog |
| `Service.RecommendationService.GetRecommendations` | frontend/src/recommendation.service.js:125-160 | no candidate: no match in single mode, `[]` in multiple mode. Single mode: a scored candidate that ranks before every other, so it has the highest score and is earliest in the catalog among ties. Multiple mode: exactly `slice(0, limit)`-many items, ranked, drawn from the scored candidates, each ranking before every candidate left out |
| `Stats.Min` | frontend/src/recommendation.service.js:180 | the minimum is one of the prices and no price is below it |
| `Stats.Max` | frontend/src/recommendation.service.js:181 | the maximum is one of the prices and no price is above it |
| `Stats.Distinct` | frontend/src/recommendation.service.js:173 | the distinct categories have no duplicates and hold exactly the input categories |
| `Stats.DistinctFirstOccurrenceOrder` | frontend/src/recommendation.service.js:173 | the distinct values are in the order of their first occurrences |
| `Stats.SumBounds` | frontend/src/recommendation.service.js:177 | if every price is within [lo, hi], the sum is within n × lo and n × hi |
| `Stats.Sum` | frontend/src/recommendation.service.js:177 | the `reduce` with initial value 0 gives 0 for no prices and is never negative when no price is |
| `Stats.Mean` | frontend/src/recommendation.service.js:177 | the mean taken once per price adds up to the sum |
| `Stats.MeanWithinBounds` | frontend/src/recommendation.service.js:177-181 | the mean price lies between the minimum and the maximum price |
| `Stats.GetRecommendationStats` | frontend/src/recommendation.service.js:167-184 | an absent or empty list gives count 0, mean 0, no categories and no price range. Otherwise: count = length; mean = sum ÷ length; min ≤ mean ≤ max; min and max are prices that bound every price; categories have no duplicates and cover exactly the input categories |
| `Stats.StatsCategoriesInFirstOccurrenceOrder` | frontend/src/recommendation.service.js:173 | the categories of the statistics follow their first occurrence in the input |
| `Examples.ScoreExamples` | src/__tests__/recommendation.service.test.js:65-122 | the six test scores: category 10, two tags 10, range 8, level 6, budget 3, combined 18 |
| `Examples.PriceToleranceExamples` | frontend/src/recommendation.service.js:52-59 | with range [50, 150], price 170 earns 4 and price 500 earns 0 |
| `Examples.FilterExamples` | src/__tests__/recommendation.service.test.js:125-157 | on the mock catalog the filter keeps 1 product for the category, 1 for budget 150, 3 for `avançado`, and 3 with no preferences |
| `Examples.SingleModeExample` | src/__tests__/recommendation.service.test.js:161-187 | on the mock catalog, single mode for `marketing` returns product 1, and for an unknown category returns no match |
| `Examples.MultipleModeExample` | src/__tests__/recommendation.service.test.js:171-195 | budget 200 with limit 2 returns two products, each scoring 3; an unknown category under the default limit returns `[]` |
| `Examples.NoInexistentCategory` | src/__tests__/recommendation.service.test.js:181-195 | no mock product has the category `inexistente` |
| `Examples.StatsExample` | src/__tests__/recommendation.service.test.js:208-224 | prices 100/200/300 give count 3, mean 200, min 100, max 300, and three categories in order |

## Left out

- `loadProducts` (network `fetch`, error logging) is not modelled. A client
  assigns the `products` field directly, as the unit tests do.
- `frontend/src/App.js` and `frontend/src/components/Form/Form.js` are the
  presentation layer: React state, form validation, and currency formatting.
- Floating point: prices, the 1.2 tolerance and the mean are exact reals, so
  IEEE rounding is not modelled.
- JavaScript coercion beyond truthiness is not modelled: a string budget, a
  price range with a missing bound, non-numeric limits, or `NaN`. The price
  range always has both bounds.
- The `uniqueScores` shortcut is not modelled as a separate branch. Sorting
  by score alone (stable) and then, when scores repeat, by score and catalog
  index gives the same order as one sort by the full comparator. The model
  performs that one sort.
- The engine's sort algorithm is not modelled; the model uses an insertion
  sort. `RankingIsDeterministic` shows that any ranked permutation is the same
  list, so the choice of algorithm does not change the result when ids are
  unique.
- With duplicate ids, `findIndex` returns the first match. The comparator
  models this, but the uniqueness lemmas assume unique ids.
- `getRecommendationStats` accepts any objects with `price` and `category`;
  the model takes products. For a scored list, pass each item's `product`.
- Default arguments: `mode = 'single'` is the `Single` case of `Mode`. The
  default limit 5 is the constant `DefaultLimit`; a call that omits the limit
  is `Multiple(DefaultLimit)`, as in `Examples.MultipleModeExample`.
- Catalog.AllowedLevels: the experience map is a plain object literal, so a
  level named like a property of `Object.prototype` (`constructor`,
  `toString`, `__proto__`, ...) looks up a non-array value; `|| []` does not
  apply and `.some` throws a TypeError in `filterProducts` and
  `calculateProductScore`. The model treats every level other than the three
  known ones as allowing nothing, so `UnknownLevelMatchesNothing`,
  `UnknownLevelFiltersAll` and `UnknownLevelEarnsNothing` hold only for level
  names that are not such properties. The form only sends the three known
  levels or the empty string.
- Service.SliceEnd: for a negative limit the contract says only that the end
  is shorter than the list. The function's value follows `slice`, counting
  back from the end, and `GetRecommendations` is stated in terms of that
  value.
