# Travel itinerary planner — a verified Dafny model

This project models the deterministic core of a multi-agent travel-itinerary
service in Dafny, with its properties proved. The service works in three
steps:

- Three agents each propose part of a two-day trip:
  - an explorer agent ranks attractions;
  - a budget agent splits the budget;
  - a food agent buckets restaurants into meals.
- External services supply weather, places and transport information.
- An orchestrator turns the agents' results into day plans, reconciles the
  budget with the planned cost and assembles the itinerary.

The model keeps all of the logic that decides what ends up in an itinerary:

- the scoring, sorting, slicing and bucketing rules;
- the cost arithmetic and the budget rules;
- the advice lines;
- the in-memory TTL cache;
- the external-API memo tables and their fallbacks.

Three kinds of thing become inputs instead of being modelled:

- the language model's answers, as candidate lists or an exception;
- HTTP answers, as a status and a body, or a network error;
- the clock, as an explicit `now`.

Files, one module each:

| file | module | what it models |
|---|---|---|
| `common.dfy` | `Common` | Python helpers: slices with clamping, filters, ASCII-only `lower`, `strip` over Python's whitespace set, decimal `str` of a count, `split`, `in` on strings, `Option`, and `Outcome` (a value or a raised exception's message) |
| `models.dfy` | `Models` | the record types with their field bounds and defaults, the two enums, and validate-and-keep for generated candidates |
| `cache.dfy` | `Cache` | `CacheService`'s memory backend as a class over a `map`, plus client methods that use only its contracts |
| `external_apis.dfy` | `ExternalApis` | destination parsing, weather advice, places and transport post-processing, mock records, and the `ExternalApiService` class with its two memo tables |
| `food_agent.dfy` | `FoodAgent` | restaurant bucketing, the two-day meal table, food advice, and the response |
| `budget_agent.dfy` | `BudgetAgent` | the tier allocation, the activity-cost table, budget advice, utilisation percentages, and the response |
| `explorer_agent.dfy` | `ExplorerAgent` | attraction scoring, a stable descending sort, the top-12 selection, category advice, and the response |
| `orchestrator.dfy` | `Orchestrator` | the agent-results table, day halves, time-of-day slots, day costs, budget reconciliation, assembly, and the pipeline |

Dictionaries with fixed keys are datatypes. A `.get(key, default)` on an
agent's `data` is a function that returns the default for a payload of the
wrong kind. Money and scores are `real`.

Code that works by changing state is imperative Dafny:

- the cache and the external-API service are classes whose methods carry
  `modifies`;
- every loop in the source is a method with a loop. Each such method is
  proved equal to a specification function, and lemmas state that
  function's properties.

## Model

| member | source | states |
|---|---|---|
| Models.ParsePreference | models.py:6-12 | parsing succeeds exactly on the six preference values, and yields the member whose value is that string |
| Models.ParseBudgetCategory | models.py:14-17 | parsing succeeds exactly on "budget", "moderate" and "luxury", and yields the member with that value |
| Models.EnumValuesDistinct | models.py:6-17 | different enum members have different string values |
| Models.KeepValid | agents/explorer_agent.py:83-93 | the kept list is no longer than the candidates, and every item in it validates |
| Models.KeepValidKeeps | agents/food_agent.py:118-128 | every complete candidate whose fields satisfy the bounds is kept |
| Models.ValidateAttraction | models.py:19-30 | building an attraction succeeds iff its fields are complete and both scores lie in [0, 10]; the result is those fields |
| Models.ValidateRestaurant | models.py:32-43 | building a restaurant succeeds iff its fields are complete and the rating lies in [0, 5] |
| Models.NewTravelRequest | models.py:64-71 | a missing group size defaults to 1; a given one is accepted iff it lies in [1, 10]; an accepted request is valid and carries exactly the given destination, budget, tier, preferences, start date, group size (1 when omitted) and special requirements |
| Models.NewDayPlan | models.py:45-53 | a day plan built from its number alone has no date, no meals, empty slots and a cost of 0 |
| Models.NewBudgetBreakdown | models.py:55-62 | a breakdown built from its total alone has every bucket and the remaining budget at 0 |
| Cache.EffectiveTtl | services/cache.py:56 | a missing or zero ttl falls back to the service default; any other ttl is used as given |
| Cache.CacheService.constructor | services/cache.py:10-13 | a new service has an empty memory cache and a one-hour default ttl |
| Cache.CacheService.Get | services/cache.py:39-48 | an absent key reads None and changes nothing; a live entry is returned unchanged; an entry at or past its expiry reads None and only that key is deleted |
| Cache.CacheService.Set | services/cache.py:53-68 | stores the value under the key until now plus the effective ttl, replacing only that key's entry, and returns true |
| Cache.CacheService.GetOrSetAsWritten | services/cache.py:73-88 | a hit returns the cached value; on a miss a plain value is stored and returned, while a callable raises the NameError for `asyncio` |
| Cache.CacheService.GetOrSet | services/cache.py:73-88 | a hit returns the cached value untouched; on a miss the plain value, or the callable's result, is stored with the effective ttl and returned |
| Cache.CacheService.Invalidate | services/cache.py:99-104 | deletes exactly the keys that contain the pattern as a literal substring, keeps every other entry unchanged, and returns true |
| Cache.CacheService.ClearAll | services/cache.py:114-117 | leaves the memory cache empty and returns true |
| Cache.StarPatternIsLiteral | services/cache.py:100 | a key without `*` never contains the pattern "key*" |
| Cache.SetThenGet | services/cache.py:40-66 | a value set with a non-zero ttl is read back at any time strictly before its expiry |
| Cache.SetThenGetExpired | services/cache.py:40-66 | at or after its expiry the value reads None and the key is gone |
| Cache.GetOrSetCallableOnEmpty | services/cache.py:76-82 | on an empty cache, get-or-set with a callable raises instead of producing a value |
| Cache.GetOrSetTwice | services/cache.py:73-88 | with the intended get-or-set, a second call within the ttl returns the first value and ignores the second producer |
| Cache.InvalidateStarKeepsKeys | services/cache.py:100-102 | invalidating "key*" keeps "key1", "key2" and "other_key" |
| ExternalApis.MockWeather | services/external_apis.py:237-262 | the fallback weather has two forecasts, on 2024-06-15 and 2024-06-16, and two recommendations |
| ExternalApis.MockPlaces | services/external_apis.py:264-275 | the fallback places list is a single entry, with id "mock_place_1" |
| ExternalApis.ParseDestination | services/external_apis.py:123-128 | without a comma: the stripped destination and ""; with one: the stripped text before the first comma and before any second comma, dropping later parts |
| ExternalApis.ParseDestinationTwoParts | services/external_apis.py:123-127 | a destination with exactly one comma gives its two stripped runs as city and country |
| ExternalApis.ParseDestinationDropsLeadingSpace | services/external_apis.py:125-127 | whitespace before the city, including the separators U+001C to U+001F, is stripped from the parsed city |
| Common.NatToString | agents/explorer_agent.py:144 | the f-string rendering of a count: decimal digits without a leading zero, denoting the count |
| ExternalApis.WeatherAdvice | services/external_apis.py:188-212 | no forecasts give only the check-weather line; otherwise each of the cold, warm, rain and snow lines is present iff its condition holds (average below 10, above 25, some lower-cased description containing "rain", or "snow") |
| ExternalApis.LinesDistinct | services/external_apis.py:201-210 | the four advice lines are pairwise different |
| ExternalApis.WeatherAdviceOrder | services/external_apis.py:201-212 | the advice lists its lines in the fixed order cold, warm, rain, snow |
| ExternalApis.WeatherAdviceBounds | services/external_apis.py:201-210 | the advice has at most three lines, and never both the cold and the warm line |
| ExternalApis.ScanForecasts | services/external_apis.py:195-210 | the scan over the forecasts yields their temperature sum, and whether any description mentions rain or snow |
| ExternalApis.GenerateWeatherRecommendations | services/external_apis.py:188-212 | the loop that sums temperatures and scans descriptions yields exactly the weather advice |
| ExternalApis.ToPlace | services/external_apis.py:161-168 | each of the six place fields is taken from the raw result or defaults to '' / 0 / [] |
| ExternalApis.ProcessedPlaces | services/external_apis.py:156-171 | at most 10 places: the first min(n, 10) results, in order, each converted by ToPlace; a body without results gives []; a body whose processing raises gives the mock list |
| ExternalApis.ProcessPlacesData | services/external_apis.py:156-169 | the appending loop yields exactly the processed places |
| ExternalApis.ProcessTransportationData | services/external_apis.py:173-186 | the first element of the first row gives duration, distance and status, each "Unknown" when missing; an empty element list, an empty rows list or a body whose processing raises gives the mock record |
| ExternalApis.GetTransportationInfo | services/external_apis.py:96-121 | only a configured key with an HTTP 200 answer is processed; every other case gives the mock record |
| ExternalApis.ExternalApiService.constructor | services/external_apis.py:9-12 | both memo tables start empty |
| ExternalApis.ExternalApiService.GetWeatherForecast | services/external_apis.py:22-56 | a hit on `destination_startdate` returns the stored report unchanged; a 200 answer is processed and stored; everything else returns the mock, uncached; the places table never changes |
| ExternalApis.ExternalApiService.GetPlacesInfo | services/external_apis.py:58-94 | a hit on `destination_placetype` returns the stored list; a configured key, known coordinates and a 200 answer give processed places, which are stored; everything else returns the mock, uncached |
| ExternalApis.WeatherLookupIsMemoised | services/external_apis.py:24-50 | after a successful lookup, a second lookup for the same key returns the same report whatever the network answers |
| ExternalApis.FailedWeatherLookupIsRetried | services/external_apis.py:24-52 | a failed lookup is not remembered, so a later successful one is processed |
| FoodAgent.FindRestaurants | agents/food_agent.py:118-128 | keeps, in order, exactly the candidates that validate; every one kept is valid, and none that validates is lost |
| FoodAgent.CategorizeRestaurants | agents/food_agent.py:186-201 | the categorisation loop appends each restaurant to the bucket its first matching rule names |
| FoodAgent.BucketsPartition | agents/food_agent.py:186-201 | the three buckets together hold the input, each restaurant as often as it occurs |
| FoodAgent.Fallback | agents/food_agent.py:206-213 | a fallback list has at most two restaurants, all from the input, and is non-empty iff the input is |
| FoodAgent.Day1Pick | agents/food_agent.py:206-208 | day 1 takes the first two of a non-empty bucket, otherwise the fallback slice |
| FoodAgent.Day2Pick | agents/food_agent.py:211-213 | day 2 takes entries 3-4 of a bucket longer than two, the first entry of a shorter non-empty bucket, otherwise the fallback slice |
| FoodAgent.CreateMealSuggestions | agents/food_agent.py:177-224 | the bucketing and conversion loops yield exactly the meal table |
| FoodAgent.MealTableKeys | agents/food_agent.py:204-222 | the table has exactly day_1 and day_2, each with breakfast, lunch and dinner |
| FoodAgent.MealListsBounded | agents/food_agent.py:204-215 | each of the six lists has at most two restaurants, all from the input, and is non-empty iff the input is |
| FoodAgent.DayTwoFollowsDayOne | agents/food_agent.py:204-215 | for a bucket longer than two, the two days' lists are consecutive slices of it; otherwise day 2 repeats day 1's first entry |
| FoodAgent.TierAdvice | agents/food_agent.py:136-163 | the tier part has the tier's three fixed lines at its end, preceded by a count line exactly for budget with some "$"/"$$" restaurant, or luxury with some "$$$"/"$$$$" one; the count line gives that number |
| FoodAgent.TierRecommendations | agents/food_agent.py:136-163 | the tier branch of the advice code yields exactly the tier part |
| FoodAgent.FoodAdviceShape | agents/food_agent.py:133-175 | the advice is the tier lines, then a diversity line iff there are more than three cuisines, then a local line iff some cuisine mentions local or traditional |
| FoodAgent.DistinctCuisinesCount | agents/food_agent.py:166-167 | the deduplicated cuisine list is longer than three iff the set of cuisines is |
| FoodAgent.GenerateFoodRecommendations | agents/food_agent.py:130-175 | the appending code yields exactly the food advice |
| FoodAgent.LocalFilter | agents/food_agent.py:171-173 | the local-restaurant filter is non-empty iff some cuisine type, lower-cased, contains "local" or "traditional" |
| FoodAgent.Process | agents/food_agent.py:10-40 | an exception gives an unsuccessful response with empty data and the message; otherwise the valid restaurants, their advice, their meal table and their count |
| BudgetAgent.AllocationFor | agents/budget_agent.py:52 | an unknown tier falls back to moderate's shares; each tier's four shares are positive and sum to 1 |
| BudgetAgent.CreateBudgetBreakdown | agents/budget_agent.py:45-72 | each bucket is budget × the tier's share; the five buckets sum to the total; miscellaneous is 0; remaining equals the total; buckets are positive for a positive budget |
| BudgetAgent.FeeTableKeys | agents/budget_agent.py:80-88 | the fee table has a key exactly for each attraction name ("Unknown" for a missing one) |
| BudgetAgent.FeeTableLastWins | agents/budget_agent.py:80-89 | a name's entry is the cost of its last occurrence |
| BudgetAgent.FeeSumConcat | agents/budget_agent.py:89 | the running total over two lists is the sum of their totals, so overwritten duplicates still count |
| BudgetAgent.EstimateActivityCostsAsWritten | agents/budget_agent.py:74-101 | raises the NoneType-times-int TypeError iff some attraction has a present but null fee; otherwise returns the activity table |
| BudgetAgent.EstimateActivityCosts | agents/budget_agent.py:74-101 | the loop yields the activity table: fee × group per name, local transportation 20/40/80 × group by tier, and Total Activities = all fees plus transportation |
| BudgetAgent.NullFeeExample | agents/budget_agent.py:82-86 | one attraction with a null fee makes the source raise, while the corrected table prices it at 0 |
| BudgetAgent.TierAdvice | agents/budget_agent.py:108-129 | each tier has four fixed lines |
| BudgetAgent.TierAdviceDiffers | agents/budget_agent.py:108-129 | different tiers open their advice with different lines |
| BudgetAgent.BudgetAdvice | agents/budget_agent.py:103-138 | the four tier lines, then a reduce-activities line iff activities exceed 30 % of the total, then a more-food line iff food is below 20 % |
| BudgetAgent.GenerateBudgetRecommendations | agents/budget_agent.py:103-138 | the extending code yields exactly the budget advice |
| BudgetAgent.ConfiguredAdviceIsTierOnly | agents/budget_agent.py:131-136 | for a configured breakdown of a non-negative budget, neither extra line fires |
| BudgetAgent.NegativeBudgetAdvice | agents/budget_agent.py:131-136 | for a negative budget both extra lines fire |
| BudgetAgent.ConfiguredShares | config.py:23-27 | every tier allots activities at most 20 % and food at least 25 % |
| BudgetAgent.BudgetUtilization | agents/budget_agent.py:140-151 | raises float division by zero iff the total is 0; otherwise the percentages sum to 100 when the buckets sum to the total |
| BudgetAgent.ConfiguredUtilization | agents/budget_agent.py:140-151 | for a configured breakdown the percentages are the tier's shares × 100, with 0 miscellaneous |
| BudgetAgent.Process | agents/budget_agent.py:11-43 | attractions with a present but null fee give an unsuccessful response with the NoneType-times-int TypeError, before the budget is looked at; otherwise a zero budget gives an unsuccessful response with the division error; otherwise the breakdown, the activity table (or {} without attractions), the advice and the utilisation |
| BudgetAgent.ProcessIntended | agents/budget_agent.py:11-43 | with the corrected activity table: a zero budget gives an unsuccessful response with the division error; otherwise the breakdown, the activity table (or {} without attractions), the advice and the utilisation |
| ExplorerAgent.FindAttractions | agents/explorer_agent.py:83-93 | keeps, in order, exactly the candidates that validate; none that validates is lost |
| ExplorerAgent.Score | agents/explorer_agent.py:101-111 | with base = the mean of the two scores plus 1 when a preference matches: the budget tier with a fee above 50 scores base − 1; the luxury tier with a non-zero fee below 20 scores base − 0.5; every other attraction scores base; a valid attraction scores in [-1, 11] |
| ExplorerAgent.SortByScoreSortedPermutation | agents/explorer_agent.py:116 | the sort yields non-increasing scores and a permutation of its input |
| ExplorerAgent.SortByScoreStable | agents/explorer_agent.py:116 | for every score, the entries with that score keep their input order |
| ExplorerAgent.RankedScores | agents/explorer_agent.py:99-116 | every ranked entry carries its own attraction's score, and that attraction comes from the input |
| ExplorerAgent.TopAttractionsProperties | agents/explorer_agent.py:116-120 | the selection has min(n, 12) attractions, takes none from the input more often than it occurs there, and has non-increasing scores |
| ExplorerAgent.OptimizeAttractions | agents/explorer_agent.py:95-122 | the scoring loop, the sort and the slice yield exactly the top selection |
| ExplorerAgent.VisitLineInjective | agents/explorer_agent.py:138 | different categories give different "Visit multiple" lines |
| ExplorerAgent.VisitLinesMembership | agents/explorer_agent.py:136-138 | a category's line is present iff the category is listed and has more than one attraction |
| ExplorerAgent.ExplorerAdviceCategories | agents/explorer_agent.py:129-138 | there is a line for a category iff more than one attraction has that category |
| ExplorerAgent.ExplorerAdviceShape | agents/explorer_agent.py:124-151 | the category lines, then the free line iff the tier is budget and some fee is missing or 0 (with that count), then the packed line iff the total duration exceeds 960 |
| ExplorerAgent.GroupingIsGrouped | agents/explorer_agent.py:129-133 | the category dictionary's keys, in insertion order, are the distinct categories, each mapped to exactly its attractions |
| ExplorerAgent.GroupByCategory | agents/explorer_agent.py:128-133 | the grouping loop yields exactly the category dictionary and its insertion order |
| ExplorerAgent.CategoryLines | agents/explorer_agent.py:135-138 | for a dictionary that groups the attractions, the loop over its items yields exactly the "Visit multiple" lines |
| ExplorerAgent.GenerateRecommendations | agents/explorer_agent.py:124-151 | the grouping and appending loops yield exactly the explorer advice |
| ExplorerAgent.Process | agents/explorer_agent.py:10-36 | an exception gives an unsuccessful response with empty data; otherwise the top attractions, their count and their advice |
| Orchestrator.RecordOf | orchestrator.py:97-105 | an exception becomes an unsuccessful entry with its message and empty data; a response keeps its success flag and data |
| Orchestrator.RunAgentsParallel | orchestrator.py:91-108 | the table has exactly the keys explorer, budget and food, holding the first, second and third outcome |
| Orchestrator.DayHalves | orchestrator.py:129-139 | the two days' lists concatenate to the explorer list, and day 2 is as long as day 1 or one longer |
| Orchestrator.AssignSlots | orchestrator.py:158-160 | each slot holds at most two attractions, all from the day's list; with six or more the slots are the first six in order |
| Orchestrator.SlotsSmall | orchestrator.py:158-160 | with at most one attraction it is the morning and the other slots are empty |
| Orchestrator.SlotsOverlap | orchestrator.py:158-160 | with 2-3 attractions the second is in the morning and the afternoon; with 3 the third is in the afternoon and the evening; with 4-5 the afternoon and the evening are both items 3-4 |
| Orchestrator.MealPick | orchestrator.py:162-173 | lunch or dinner is present iff the day lists that meal with at least one restaurant, and it is the first one |
| Orchestrator.FeesCostConcat | orchestrator.py:179-181 | the fees of concatenated slots are the sum of each slot's fees |
| Orchestrator.FeesCostNonNegative | orchestrator.py:179-181 | with non-negative fees and group size, the fees are non-negative |
| Orchestrator.DayCostNonNegative | orchestrator.py:176-188 | with non-negative fees, meal costs and group size, the day's cost is non-negative |
| Orchestrator.OverlapCountedTwice | orchestrator.py:158-181 | with four or five attractions, items 3-4 are paid for twice |
| Orchestrator.SumFees | orchestrator.py:174-181 | the fee loop over the slot occurrences yields the fees of the day |
| Orchestrator.CreateSingleDayPlan | orchestrator.py:148-199 | the cost loop and the meal picks yield the day's plan: its slots, first lunch and dinner, start date plus day − 1, and the cost |
| Orchestrator.CreateDayPlansAsWritten | orchestrator.py:110-146 | raises UnboundLocalError for `meal_suggestions` iff the food agent did not succeed; otherwise the two plans from the explorer's halves and the food meal table |
| Orchestrator.CreateDayPlans | orchestrator.py:110-146 | the two plans from the explorer's halves and the food meal table, or no meals when the food agent failed |
| Orchestrator.DayPlansShape | orchestrator.py:126-144 | plans are days 1 and 2 on the start date and the next day; each day's slots come from its half; without meals a day costs its fees alone |
| Orchestrator.DefaultBreakdown | orchestrator.py:211-219 | the default splits the budget 40/10/30/20 with nothing miscellaneous or remaining; the buckets sum to the budget |
| Orchestrator.Reconciled | orchestrator.py:222-235 | activities become the larger of their budget and the planned cost; on an excess, miscellaneous shrinks by it but not below 0, otherwise it stays; other buckets and the total stay; buckets plus remaining equal the total |
| Orchestrator.ReconciledRemaining | orchestrator.py:231-235 | from a fully allocated breakdown, remaining is 0 when the plans fit, otherwise it is the negative overspend, unclamped |
| Orchestrator.ReconciledKeepsMiscNonNegative | orchestrator.py:229 | a non-negative miscellaneous bucket stays non-negative |
| Orchestrator.ReconcileBudget | orchestrator.py:201-237 | starting from the budget agent's breakdown (or the default) and the summed day costs, the in-place updates yield the reconciled breakdown |
| Orchestrator.RecommendationsFromSuccesses | orchestrator.py:250-268 | every itinerary recommendation comes from a successful agent's list or from the weather report |
| Orchestrator.UtilizationPercentage | orchestrator.py:248 | zero for a non-positive budget; otherwise percentage × budget = cost × 100 |
| Orchestrator.UtilizationWithinBudget | orchestrator.py:248 | a non-negative cost within a positive budget uses 0-100 % of it |
| Orchestrator.SumPlannedCost | orchestrator.py:243-244 | the sum over the day plans is their planned cost |
| Orchestrator.CollectRecommendations | orchestrator.py:250-268 | the extending steps yield the recommendations in the order explorer, budget, food, weather |
| Orchestrator.AssembleItinerary | orchestrator.py:239-292 | total = day costs + accommodation + transportation; utilisation of that total; recommendations in the order explorer, budget, food, weather; the four fixed emergency contacts |
| Orchestrator.CreateItineraryAsWritten | orchestrator.py:15-46 | the pipeline as written raises iff the food agent did not succeed; when it returns, the itinerary has the request's destination and budget, the two planned days, the reconciled breakdown (buckets plus remaining equal its total), the summed cost, the utilisation of the budget, the recommendations in agent order then the weather's, and the emergency contacts |
| Orchestrator.CreateItinerary | orchestrator.py:15-46 | the intended pipeline gives the request's destination and budget, two day plans, a reconciled breakdown whose buckets and remaining add up to its total, the summed cost, the utilisation of the budget, the recommendations in agent order then the weather's, and the emergency contacts |

## Left out

- The Redis branch of the cache, and the md5/JSON key builder in `services/cache.py`: foreign backend and hash.
- HTTP, aiohttp sessions and geocoding. An HTTP answer is an input: a status and a body, or a network error. The API keys are a flag, and the coordinates an optional input.
- `_process_weather_data`'s filtering of timestamps to the travel dates depends on the clock and time zones. The model's weather body is the already-filtered forecast list, or a body whose processing raises.
- `_gather_external_data` and its `asyncio.gather`: only the weather report reaches the itinerary, so it is an optional input of assembly. The places lists end in `external_data`, which the itinerary record does not declare and so drops.
- The concurrency of `asyncio.gather` over the agents: each agent's result is a settled outcome.
- The language-model call and JSON extraction in `agents/base_agent.py`. The `_find_*` methods take the candidate list the model would produce. As written, the extractor returns a dictionary, so their `isinstance(data, list)` loops never run. The model starts from that list.
- Clocks: `time.time()`, `processing_time`, `created_at` and the cache's expiry clock. The cache takes an explicit `now`.
- Date arithmetic: a plan's date is the start date plus an offset. The ValueError `strptime` raises for a malformed start date is not modelled.
- `print` logging, the prompt texts, main.py's routes and its itinerary cache, and reading settings from the environment. Only the tier table from config.py is kept.
- Float rounding: every amount is an exact real.
- The conversion of records to dictionaries (`.dict()` and the meal table's conversion loop): records stay values.
- FoodAgent.DiversityLine: lists cuisines in order of first appearance. The source takes three from a set, whose iteration order Python does not fix, so only when the line appears is modelled faithfully.
- ExplorerAgent.ExplorerAdviceShape: fixes the positions and count of the free and packed lines, not a membership statement for them. Long literals with interpolated numbers are compared by position.
- Orchestrator.UnboundMealSuggestions: uses the wording Python 3.11 and later give to UnboundLocalError.
- Strings: lower-casing is ASCII only. Python's `str.lower()` is Unicode-aware: it maps characters such as U+212A to `k` and U+0130 to two characters, which the model leaves unchanged. The "rain"/"snow"/"local"/"breakfast" tests and the preference match can therefore differ from the source on non-ASCII text. Whitespace stripping uses the full set of characters for which `str.isspace()` holds.
- Orchestrator.BudgetRecordOk: ReconcileBudget and both pipelines require that a successful budget record carries a breakdown. In the source, a successful record without one makes `BudgetBreakdown(**{})` at orchestrator.py:208 raise a ValidationError. The budget agent never produces such a record, so that path is not modelled.
- Cache.CacheService.GetOrSet: a stored None is not singled out. `get_or_set` treats a stored None as a miss (services/cache.py:78), while the model treats every stored value, None included, as a hit.
- BudgetAgent.EstimateActivityCosts: a `name` key present with value None cannot be expressed; the source would key that attraction's cost by None rather than "Unknown".

## Findings

| source | as written | input that shows it | evidently intended | confidence | as-written member | corrected member |
|---|---|---|---|---|---|---|
| services/cache.py:82 | `get_or_set` on a miss with a callable evaluates `asyncio.iscoroutinefunction`, but the module never imports `asyncio`, so it raises NameError | an empty cache, key "k", producer any callable | the callable (awaited if a coroutine function) produces the value, which is stored and returned | high (not executed) | Cache.CacheService.GetOrSetAsWritten, exhibited by Cache.GetOrSetCallableOnEmpty | Cache.CacheService.GetOrSet, with Cache.GetOrSetTwice |
| orchestrator.py:121-131 | `meal_suggestions` is assigned only inside `if agent_results["food"]["success"]`, so a failed food agent makes line 131 raise UnboundLocalError and the whole itinerary fails | a food agent outcome that is an exception or `success: false` | the day plans are built without meals (`meal_suggestions = {}`) | high (not executed) | Orchestrator.CreateDayPlansAsWritten and Orchestrator.CreateItineraryAsWritten | Orchestrator.CreateDayPlans and Orchestrator.CreateItinerary |
| agents/budget_agent.py:82-86 | `attraction.get("entry_fee", 0.0)` returns None when the key is present with a null fee, as in an attraction's dictionary form with no fee, and `None * group_size` raises TypeError | attractions `[{"name": "Park", "entry_fee": None}]` | a null fee counts as 0 | medium (not executed; latent, since orchestrator.py:83 calls `process(request)` without an attractions context, so no caller in the repository reaches it) | BudgetAgent.EstimateActivityCostsAsWritten and BudgetAgent.Process, exhibited by BudgetAgent.NullFeeExample | BudgetAgent.EstimateActivityCosts and BudgetAgent.ProcessIntended |
