# Plethora ranking and recommendation engine, in Dafny

Plethora lets a user keep a list of watched films and shows and rank them by
answering "which did you prefer?" questions. This project models the
engine behind that and proves properties about it. The engine has four
parts:

- **the comparison aggregator** (`updateRankings`). It turns the log of
  pairwise preferences into win percentages and a ranking, then writes each
  item's place back into the user's list;
- **the pair selector** (`findNextComparisonPair`). It proposes the pair of
  watched items that has been compared least often;
- **the facet classifier** (`groupRankingsByCategory`). It buckets the
  ranked list by genre, platform, language, type, length tier or rating
  tier, and sorts each bucket by rank;
- **the subscription optimizer** (`generateSubscriptionRecommendations`).
  It picks streaming platforms greedily, each time the one that covers the
  most watched items not yet covered, and reports the coverage of the
  current and the recommended subscriptions.

The model also covers:

- the rules of the user routes that feed the engine: adding to the watched
  list, the category guard, the two-item guard, and the rank-sorted list;
- the catalogue helpers of the Watchmode integration that produce the media
  records: source ids to platform names, genre cleaning, title conversion,
  and the reverse platform lookup.

Modules, one per file:

| file | module | models |
|---|---|---|
| `wrappers.dfy` | `Wrappers` | `Option` and `Result` |
| `domain.dfy` | `Domain` | comparisons, media documents, watched entries, the `User` document |
| `stable_sort.dfy` | `StableSort` | `Array.prototype.sort` with a numeric comparator. It is stable, so it is modelled as a stable insertion sort by key. |
| `aggregator.dfy` | `Aggregator` | `updateRankings` |
| `pair_selector.dfy` | `PairSelector` | `findNextComparisonPair` |
| `facets.dfy` | `FacetClassifier` | `groupRankingsByCategory` |
| `subscriptions.dfy` | `SubscriptionOptimizer` | `generateSubscriptionRecommendations` |
| `watched.dfy` | `Watched` | the rules of the `/users` routes |
| `catalogue.dfy` | `Catalogue` | `PLATFORM_MAPPING`, `mapSourcesToPlatforms`, `mapGenres`, `convertToMediaFormat`, the lookup in `syncPlatformTitles` |

### How the model is organised

- **Loops become methods.** Each loop of the source (the tally, the nested
  pair loops, the filing and sorting loops, the greedy `while (true)`, the
  coverage count) is a `method` with loop invariants.
- **Each method is tied to a function.** Its `ensures` equates the result
  with a specification function. The properties the code promises are then
  proved as lemmas about those functions.
- **State the routes change is a class.** The user document that the
  routes change in place is the class `Domain.User`. `updateRankings` and
  the add-to-watched route are methods that modify it.
- **Database reads are inputs.** The comparison log, the populated rankings
  and the media-exists flag are parameters of the operations.

### Ties

Ties are broken by the order the code meets the candidates in:
- Equal win percentages keep the order in which the items first appear in
  the comparison log, because the sort is stable (`RankingTiesKeepFirstAppearance`).
- Equal pair counts keep the enumeration order (`NextPairIsEarliestLeastCompared`).
- Equal platform gains go to the platform that comes first in key order,
  because the greedy loop compares with a strict `>` (`BestIsFirst`,
  `GreedyPicksAreGreedy`).

## Model

| member | source | states |
|---|---|---|
| Aggregator.FindIndex | media-ranking-api/services/ranking.js:54-56 | `findIndex`: the found index holds the id and no earlier entry does; no index means no entry holds the id |
| Aggregator.Tally | media-ranking-api/services/ranking.js:14-32 | the tally loop yields, for every id seen in the log, its number of wins and of losses and nothing for other ids, and lists the ids in first-appearance order |
| Aggregator.ComputeRanking | media-ranking-api/services/ranking.js:35-44 | the computed ranking is the ranking of the log (`RankingOf`), whose properties the lemmas below state |
| Aggregator.UpdateRankings | media-ranking-api/services/ranking.js:9-65 | returns the ranking and writes its places back into the user's list; the subscriptions are untouched |
| Aggregator.SeenMembership | media-ranking-api/services/ranking.js:16-23 | an id is in the media set exactly when it won or lost at least once |
| Aggregator.SeenHasNoDuplicates | media-ranking-api/services/ranking.js:16-23 | the media set holds each id once |
| Aggregator.WinsAndLossesSumToLogLength | media-ranking-api/services/ranking.js:18-32 | the wins over all ids add up to the number of comparisons, and so do the losses |
| Aggregator.TalliesSumToLogLength | media-ranking-api/services/ranking.js:18-32 | each side's tallies over the seen ids add up to the length of the log |
| Aggregator.WinPercentageBounds | media-ranking-api/services/ranking.js:37-39 | a win percentage lies in [0, 1]; it is 1 exactly when there are no losses and 0 exactly when there are no wins |
| Aggregator.StandingsFacts | media-ranking-api/services/ranking.js:35-41 | one standing per seen id, in the media set's order, none repeated |
| Aggregator.RankingIsSortedPermutationOfSeen | media-ranking-api/services/ranking.js:35-44 | the ranking holds each seen id once with its own win percentage, in non-increasing order of win percentage |
| Aggregator.RankingTiesKeepFirstAppearance | media-ranking-api/services/ranking.js:35-44 | of two ids with equal win percentage, the one that appeared first in the log ranks first |
| Aggregator.ExampleTallies | media-ranking-api/services/ranking.js:14-32 | for A>B, A>C, C>B: seen A, B, C; A 2-0, B 0-2, C 1-1 |
| Aggregator.ExampleRanking | media-ranking-api/services/ranking.js:14-44 | the same log ranks A, C, B |
| Aggregator.SetRankEffect | media-ranking-api/services/ranking.js:53-60 | setting a rank changes only the rank of the first entry holding the id, and nothing when no entry holds it |
| Aggregator.FindIndexOnIds | media-ranking-api/services/ranking.js:54-56 | the lookup depends only on the ids, so rewriting ranks does not move it |
| Aggregator.WriteBackEffect | media-ranking-api/services/ranking.js:52-61 | after the write-back every entry keeps its id and platform; its rank becomes the 1-based ranking place of its id when it is the first entry of an id the ranking holds, and is unchanged otherwise |
| Aggregator.UpdateIsIdempotent | media-ranking-api/services/ranking.js:52-61 | writing the same ranking back twice gives the same list as once |
| Aggregator.EmptyLogChangesNothing | media-ranking-api/services/ranking.js:9-65 | with no comparisons the ranking is empty and the list is unchanged |
| StableSort.SortByIsSortedPermutation | media-ranking-api/services/ranking.js:44 | the sort yields a permutation of its input (same multiset and length) ordered by key |
| StableSort.SortByIsStable | media-ranking-api/services/ranking.js:44 | elements with equal keys keep their input order |
| StableSort.SortByHeadIsFirstMinimum | media-ranking-api/services/ranking.js:92-98 | the first element of the sorted list has the least key, and every input element before it has a larger key |
| PairSelector.FindNextComparisonPair | media-ranking-api/services/ranking.js:70-98 | the nested loops and the sort return the head pair of the sorted candidates (`NextPair`), or none |
| PairSelector.PairCountIsSymmetric | media-ranking-api/services/ranking.js:82-85 | a pair's count does not depend on which side won |
| PairSelector.AllPairsFacts | media-ranking-api/services/ranking.js:75-89 | the candidates are exactly the pairs i < j, each once, at its place in the (i, j) enumeration order, n(n-1)/2 of them |
| PairSelector.NextPairIsEarliestLeastCompared | media-ranking-api/services/ranking.js:91-98 | no pair exactly when fewer than two ids; otherwise a pair (ids[i], ids[j]) with i < j whose count is minimal, and every earlier pair in the enumeration has a larger count |
| PairSelector.ExampleNextPair | media-ranking-api/services/ranking.js:75-98 | for X, Y, Z with X>Y, Y>X, Y>Z the pair is (X, Z) |
| FacetClassifier.GroupRankingsByCategory | media-ranking-api/services/ranking.js:114-180 | filing then sorting yields the grouping of the entries (`Grouped`) |
| FacetClassifier.FileAll | media-ranking-api/services/ranking.js:117-172 | after the filing loop each label's bucket holds the items filed under it, in list order, and there are no other buckets |
| FacetClassifier.SortEach | media-ranking-api/services/ranking.js:174-177 | sorting every bucket by rank turns the filed buckets into the grouping |
| FacetClassifier.GroupedIsFiledByLabel | media-ranking-api/services/ranking.js:114-179 | the buckets are exactly the labels of the populated entries; each bucket is sorted by rank, is a permutation of the items filed under it, and holds exactly the items of entries carrying that label |
| FacetClassifier.GroupSizes | media-ranking-api/services/ranking.js:161-171 | a bucket has one item per mention of its label, so a genre listed twice files the item twice |
| FacetClassifier.GroupTotal | media-ranking-api/services/ranking.js:114-179 | the labels in first-push order name every bucket exactly once, and the bucket sizes over them add up to the number of labels of all entries whose media exists |
| FacetClassifier.SingleValuedCategories | media-ranking-api/services/ranking.js:126-158 | every category except genre and language yields exactly one label |
| FacetClassifier.SingleValuedCategoriesPartition | media-ranking-api/services/ranking.js:126-171 | under a single-valued category each item lies in the bucket of its own label only |
| FacetClassifier.UnknownCategoryHasOneLabel | media-ranking-api/services/ranking.js:157-158 | an unrecognised category files everything under 'Unknown' |
| FacetClassifier.LengthTierIsMonotone | media-ranking-api/services/ranking.js:135-147 | for titles of the same type, a longer one never falls in a shorter tier, and a missing length ranks with the longest |
| FacetClassifier.RatingTierIsMonotone | media-ranking-api/services/ranking.js:148-156 | unrated exactly when the rating is missing or 0; otherwise a higher rating never falls in a lower tier |
| SubscriptionOptimizer.CountPlatforms | media-ranking-api/services/ranking.js:198-214 | the counting loop yields the first-encountered platform order, the per-platform mention counts and the per-platform media sets |
| SubscriptionOptimizer.Best | media-ranking-api/services/ranking.js:222-241 | a platform is found exactly when the best gain is positive; it is one not yet selected, and its gain is the one reported |
| SubscriptionOptimizer.CountNew | media-ranking-api/services/ranking.js:229-235 | the new-coverage count is the number of the platform's media not yet covered |
| SubscriptionOptimizer.Absorb | media-ranking-api/services/ranking.js:250-252 | adding a platform's media gives the union and counts what was added |
| SubscriptionOptimizer.ScanBest | media-ranking-api/services/ranking.js:222-241 | the scan over the platforms finds the best pick (`Best`) |
| SubscriptionOptimizer.SelectPlatforms | media-ranking-api/services/ranking.js:217-253 | the greedy loop selects the greedy sequence (`Greedy`) and covers exactly the media of the selected platforms |
| SubscriptionOptimizer.CurrentCoverage | media-ranking-api/services/ranking.js:266-280 | the count is the number of distinct media on the current subscriptions, unknown platforms adding none |
| SubscriptionOptimizer.GenerateSubscriptionRecommendations | media-ranking-api/services/ranking.js:185-295 | the computed report is the recommendation (`Recommend`) |
| SubscriptionOptimizer.BestIsMaximum | media-ranking-api/services/ranking.js:225-241 | no unselected platform has a larger gain than the pick |
| SubscriptionOptimizer.BestIsFirst | media-ranking-api/services/ranking.js:237-240 | with equal gains the earliest platform in key order wins (strict `>`) |
| SubscriptionOptimizer.GreedyPicksAreGreedy | media-ranking-api/services/ranking.js:221-253 | every pick is a platform not picked before, adds at least one medium, has the largest gain in its round, and comes first among equals |
| SubscriptionOptimizer.GreedyStops | media-ranking-api/services/ranking.js:243-244 | the loop stops only when no platform can add coverage |
| SubscriptionOptimizer.GreedyLeavesNothing | media-ranking-api/services/ranking.js:221-253 | every platform's media are covered by the picks at the end |
| SubscriptionOptimizer.PicksAreKeys | media-ranking-api/services/ranking.js:217-247 | only counted platforms are picked |
| SubscriptionOptimizer.GreedyCoversEverything | media-ranking-api/services/ranking.js:217-253 | the picks cover exactly what all platforms together cover |
| SubscriptionOptimizer.OnePlatformCoversAll | media-ranking-api/services/ranking.js:217-253 | when one platform alone covers every watched media on any platform, exactly one platform is recommended, and it covers everything |
| SubscriptionOptimizer.FirstFullCoverIsThePick | media-ranking-api/services/ranking.js:221-253 | the recommendation is exactly `[p]` when p is the first platform in key order that covers everything; an earlier full-cover platform would win the tie, by the strict `>` at line 237 |
| SubscriptionOptimizer.GreedyTerminatesWithinPlatforms | media-ranking-api/services/ranking.js:221-253 | there are at most as many picks as platforms |
| SubscriptionOptimizer.WatchedMediaBound | media-ranking-api/services/ranking.js:201-213 | no more distinct media than entries, and each platform's media are among them |
| SubscriptionOptimizer.CountCoversMedia | media-ranking-api/services/ranking.js:206-213 | a platform's distinct media never exceed its mention count |
| SubscriptionOptimizer.RoundToTenthIsNearest | media-ranking-api/services/ranking.js:262 | `Math.round(x * 10) / 10` is within 0.05 of x |
| SubscriptionOptimizer.RoundToTenthIsMonotone | media-ranking-api/services/ranking.js:290-292 | rounding keeps order |
| SubscriptionOptimizer.PercentIsMonotone | media-ranking-api/services/ranking.js:282-286 | more covered items never give a smaller percentage |
| SubscriptionOptimizer.ReportCoverage | media-ranking-api/services/ranking.js:282-292 | current coverage ≤ optimal coverage ≤ 100 |
| SubscriptionOptimizer.RoundedShares | media-ranking-api/services/ranking.js:282-292 | rounded shares of the same total keep order and stay within 100 |
| SubscriptionOptimizer.CurrentWithinAll | media-ranking-api/services/ranking.js:266-286 | the current subscriptions cover nothing the counted platforms do not |
| SubscriptionOptimizer.CoveredIsWatched | media-ranking-api/services/ranking.js:256-286 | any platforms cover only watched media, no more than there are entries |
| SubscriptionOptimizer.DetailsDescribePicks | media-ranking-api/services/ranking.js:256-264 | one detail per pick, in pick order, with the platform's mention count, which is at least its number of distinct media |
| SubscriptionOptimizer.EmptyRankingsHaveNoCoverage | media-ranking-api/services/ranking.js:282-294 | with no rankings both coverages are 0 and nothing is recommended |
| SubscriptionOptimizer.ExamplePicks | media-ranking-api/services/ranking.js:198-253 | A on Netflix and Hulu, B on Hulu, C on Disney+: the picks are Hulu then Disney+ |
| SubscriptionOptimizer.ExampleReport | media-ranking-api/services/ranking.js:185-295 | with a Netflix subscription the same list reports current 33.3 and optimal 100.0 |
| SubscriptionOptimizer.ExampleRounding | media-ranking-api/services/ranking.js:262 | one third rounds to 33.3 and three thirds to 100.0 |
| Watched.MaxRank | server/routes/users.js:200-201 | the greatest rank in the list: no entry exceeds it and some entry has it |
| Watched.AddWatched | server/routes/users.js:167-210 | the add-to-watched route updates the list, replies and saves as `Add` says; the subscriptions are untouched (request ids taken to be canonical) |
| Watched.RejectedAddChangesNothing | server/routes/users.js:169-177 | the add is refused exactly when the id is missing (400 'Media ID is required') or the media does not exist (404 'Media not found'); a refusal saves nothing and changes nothing |
| Watched.ReAddUpdatesPlatformOnly | server/routes/users.js:186-197 | re-adding an item changes only its platform; it saves exactly when the platform differs, and replies 200 with the updated entry |
| Watched.FirstAddAppends | server/routes/users.js:199-210 | a new item is appended with a rank above every existing rank (one more than the greatest, or 1 in an empty list), saved, and replied with 201 |
| Watched.AddIsIdempotent | server/routes/users.js:186-210 | for an id in canonical form, repeating an add changes nothing more and saves nothing |
| Watched.AddKeepsIdsDistinct | server/routes/users.js:186-210 | for ids in canonical form, the route never puts the same id in the list twice |
| Watched.RankingsViewIsSortedPermutation | server/routes/users.js:85 | the rankings view is a permutation of the stored list, sorted by rank |
| Watched.RankingsViewKeepsStoredOrderOnTies | server/routes/users.js:85 | entries of equal rank keep their stored order |
| Watched.RankingsByCategory | server/routes/users.js:101-119 | the category route replies with `CategoryView` |
| Watched.CategoryGuard | server/routes/users.js:102-106 | refused with 400 'Invalid category' exactly when the category is not one of the six; otherwise every bucket is a label of a populated entry |
| Watched.ComparisonPair | server/routes/users.js:140-153 | the comparison-pair route replies with `PairView` |
| Watched.PairGuard | server/routes/users.js:142-153 | refused with 400 exactly when fewer than two items are watched; otherwise the pair is an earliest least-compared pair of watched ids |
| Catalogue.PlatformsAreNamesOfKnownIds | server/services/watchmode-integration.js:24-29 | the platforms are, in order, the names of the known source ids; unknown ids are dropped, a list of known ids loses none, and every name is a mapped platform |
| Catalogue.MissingSourcesHaveNoPlatforms | server/services/watchmode-integration.js:25 | no source list gives no platforms |
| Catalogue.MappingKeysAreTheKeys | server/services/watchmode-integration.js:11-21 | the enumerated keys are exactly the mapping's keys |
| Catalogue.ResolvePlatformFindsAnId | server/services/watchmode-integration.js:160-162 | a name resolves exactly when it is a mapped platform, to an id that maps back to it |
| Catalogue.ResolvePlatformIsInverse | server/services/watchmode-integration.js:160-162 | no two ids share a name, so every id's name resolves back to that id |
| Catalogue.SyncRejectsUnknownPlatforms | server/services/watchmode-integration.js:158-166 | the sync stops with 0 added, 0 updated and 'Unknown platform' exactly when the name is not mapped |
| Catalogue.TrimLeavesNoSurroundingSpace | server/services/watchmode-integration.js:35 | `trim()` leaves no white space at either end |
| Catalogue.CleanGenreHasNoSurroundingSpace | server/services/watchmode-integration.js:35 | a cleaned genre has no white space at either end |
| Catalogue.CleanGenreIsStretch | server/services/watchmode-integration.js:35 | a cleaned genre is the stretch of the original that follows the removed number and its leading white space, up to the trailing white space |
| Catalogue.CleanNamesAreFixpoints | server/services/watchmode-integration.js:35 | a name without a leading digit or surrounding white space is left unchanged |
| Catalogue.CleanGenreExample | server/services/watchmode-integration.js:35 | "12 Action " cleans to "Action" |
| Catalogue.CleanGenreIsNotIdempotent | server/services/watchmode-integration.js:35 | only one number is removed: "1 2 Drama" cleans to "2 Drama", which cleans further |
| Catalogue.MapGenresKeepsLength | server/services/watchmode-integration.js:32-36 | no genre list gives none; otherwise one cleaned name per genre, in order |
| Catalogue.ConversionFacts | server/services/watchmode-integration.js:98-127 | type 'movie' exactly for Watchmode movies; basic fields copied; extra fields exactly when there are details; the length is the runtime or episode count, 0 when missing; at most one language, present exactly when the original language is non-empty; only mapped platforms, no more than sources; one genre per genre |
| Catalogue.ConvertedLengthTiers | server/services/watchmode-integration.js:118-123 | a movie converted without details has no length and falls in the longest tier; one with details but no runtime gets 0 and falls in the shortest |

## Left out

- Database access is not modelled: `find`, `findById`, `populate`, `exists` and `save` become inputs and outputs. The comparison log, the populated list and the media-exists flag are parameters. A `saved` flag says whether the route would save.
- The "User not found" paths of the routes and engine functions are left out, because the model takes the user document as given.
- Authentication, the 403 checks, Express plumbing and the 500 catch-alls are left out.
- The `Media.findById` enrichment step of `findNextComparisonPair` (media-ranking-api/services/ranking.js:100-108) returns the two documents or null. It needs the media collection. The model returns the chosen ids, so the route's 404 'No valid comparison pair found' cannot occur in the model.
- The HTTP calls, the rate-limit delays and the loops of `syncPlatformTitles`, `syncAllPlatforms` and `searchAndAddTitle` are left out. The model covers only their inputs: the platform lookup and the title conversion. `upsertMedia` is not part of this model.
- No arithmetic is floating point. Win percentages and coverage percentages are exact real values, and `Math.round(x * 10) / 10` is applied to them exactly. The source computes in doubles, where `x * 10` can land just below a half. In such half-way cases its rounded result can differ from the model's by one tenth.
- `Object.keys` order is taken to be insertion order for platform names. JavaScript enumerates integer-like keys first, so a platform literally named "123" would be scanned earlier than the model says. For `PLATFORM_MAPPING` the ascending numeric order is modelled.
- Watchmode source ids are ints, not the strings that `Object.keys` returns. `syncPlatformTitles` only passes the id on, so nothing depends on this.
- Values the API never sends for these fields are not modelled: `undefined` inside lists, NaN, and non-string ids. Missing values are `Option`s. The falsiness tests `!rating`, `|| 0` and `x ? [x] : []` are written out for the values that occur.
- Concurrent requests and the lost-update race between reading and saving a user document are not modelled.
- Mongo ObjectIds are modelled as strings. The engine functions compare ids only through their string form (`toString()` / `equals`), and the model takes every id to be that canonical form: 24 lowercase hex digits.
- Watched.Add, Watched.AddWatched, Watched.AddIsIdempotent, Watched.AddKeepsIdsDistinct: the request's `mediaId` is assumed to be canonical already. The route looks the id up by comparing each stored id's lowercase `toString()` with the raw request text. It then pushes the request text cast to an ObjectId. So a request in another form, such as uppercase hex, misses the stored entry and is appended again as a duplicate, with rank max+1 and reply 201. Each repeat appends another copy. For such ids the source is neither idempotent nor duplicate-free, and these members do not describe it.
- FacetClassifier.GroupRankingsByCategory: the key order of the returned object is not modelled, because the result is a `map`. In the source the buckets appear in first-push order, except that integer-like labels come first in ascending order, and the route sends the object in that order. `FacetClassifier.LabelOrder` gives the first-push order but is not tied to the result.
- FacetClassifier.FileAll, SubscriptionOptimizer.CountPlatforms and SubscriptionOptimizer.CurrentCoverage: a label, platform or subscription named after an `Object.prototype` member (such as "constructor", "toString" or "__proto__") is treated as an ordinary key. In the source, `result[value]`, `platformCounts[platform]` and `platformMediaIds[platform]` then find the inherited member instead of `undefined`, the next `push`, `add` or `forEach` throws, and the route answers 500. Such names can reach the data, because platform lists and subscriptions are free strings.
