# HungerBusters (Bhookh Buster): a verified model of the surplus-food marketplace

Bhookh Buster connects students with surplus food from the campus dining halls.
A scraper turns the dining payload into hall records, each with a generated
menu. A data manager loads these into a table of halls, each hall owning an
inventory of items. A marketplace service serves three requests on top of that:

- a free random "surprise bag";
- ranked suggestions, computed either by a local score or by a remote ranking
  model with a local fallback;
- custom orders at 30% of the original price, numbered `ORD_0001`, `ORD_0002`, …

The repository has three versions of the service:

- `app.py`;
- `app_enhanced.py`, which asks the remote ranking model and adds an impact
  message to every order;
- `bhookh_buster.py`, a standalone service with its own demo halls, its own
  nearby filter and its own mood table.

One `Marketplace.Service` class models all three. A `Variant` value records
where they differ:

- whether only nearby halls count;
- whether an empty preference filter falls back to all items;
- which mood table is used;
- whether order numbers come from a counter or from the ledger length;
- whether orders carry an impact message.

The Dafny modules follow the Python files:

| module | file | models |
|---|---|---|
| `Text` | (Python `str`) | `lower`, `strip`, `split('\n')`, `str(n)` and `zfill` |
| `Config` | `config.py` | the business constants and `MOOD_FOOD_MAP` |
| `Models` | `models.py` | `User` and `Restaurant` as classes updated in place; food items and orders as values |
| `Scoring` | `app.py`, `app_enhanced.py`, `bhookh_buster.py` | the discount price, the urgency tiers, the mood bonus and the item score |
| `Ranking` | (the `sort`/slice idiom of the services) | a stable descending sort and "top k" |
| `Sampling` | (Python `random`) | `randint` and `sample` as nondeterministic choice |
| `Inventory` | `data_manager.py` | the hall table (`DataManager` class) and its loaders |
| `Scraper` | `cornell_scraper_modular.py` | the payload-to-hall-records transformation |
| `AiService` | `claude_ai_service.py` | item summaries, reply clean-up and parsing, the fallback ranking, the impact message |
| `Marketplace` | `app.py`, `app_enhanced.py`, `bhookh_buster.py` | the service: users, bags, suggestions and orders |

Units:

- Money is integer cents, as in the data (`price_cents`).
- A discount price is in tenths of a cent, so that 30% of any price is exact:
  `DiscountPrice(p) == 3 * p`.
- Time is whole seconds. The current time `now` is a parameter of every
  operation that reads the clock.

Python dicts keep insertion order. The hall table is therefore a key sequence
plus a map, and scans follow the key sequence.

External effects are parameters. The remote model's reply is a parameter
`callApi: seq<ItemSummary> -> ApiReply`, which returns the reply text or a
failure. `json.loads` is a parameter `decode: string -> Json`. Random draws are
nondeterministic choices within the bounds the source passes to `random`.

Where the code and its design disagree, the model follows the code:

- **Decode errors.** A reply that does not decode as JSON gives an empty
  suggestion list. The fallback ranking is not used, because the
  `JSONDecodeError` handler returns `[]` (claude_ai_service.py:296-299).
  `AiService.DecodeErrorGivesNothing` states this.
- **Registering twice.** Registering an existing user id replaces the profile
  and its history.
- **Location.** The modular services pass the user's location to the data
  manager, which ignores it (data_manager.py:141). So `app.py` and
  `app_enhanced.py` draw from all halls. Only the standalone service filters by
  `_is_nearby`.
- **Filter versus bonus.** The preference filter matches a preference that is a
  substring of the food type. The dietary bonus needs an exact match.
  `Marketplace.SubstringMatchEarnsNoBonus` shows an item that passes the filter
  but gets no bonus.
- **No fallback in the standalone service.** Its surprise bag has no
  fallback-to-all. A user whose preferences match nothing gets an empty bag.
- **The impact sentence.** The fallback impact sentence ends in the four
  characters that the source file holds in place of the globe emoji
  (claude_ai_service.py:131). The model keeps those characters.

## Model

| member | source | states |
|---|---|---|
| Text.Lower | app.py:184 | lower-casing keeps the length, maps each character by ASCII `lower()` and leaves no upper-case letter |
| Text.LowerOfLower | app.py:184 | a string without upper-case letters is its own lower-case form |
| Text.LowerIdempotent | bhookh_buster.py:225 | lower-casing twice equals lower-casing once |
| Text.SubstringReflexive | bhookh_buster.py:225 | `s in s` holds, and the empty string is in every string |
| Text.StripLeft | claude_ai_service.py:270 | the result is a suffix of the input that does not start with whitespace, and every character dropped is whitespace |
| Text.StripRight | claude_ai_service.py:270 | the result is a prefix of the input that does not end with whitespace, and every character dropped is whitespace |
| Text.Strip | claude_ai_service.py:270 | the result is a contiguous piece of the input that neither starts nor ends with whitespace, and everything cut off before and after it is whitespace |
| Text.StripBothEnds | claude_ai_service.py:270 | stripping the left end and then the right end removes exactly the whitespace around the text |
| Text.StripUnchanged | claude_ai_service.py:128 | a string that starts and ends with a non-space character is its own strip |
| Text.SplitLines | claude_ai_service.py:273 | `split('\n')` gives at least one piece, and no piece contains a newline |
| Text.SplitNoNewline | claude_ai_service.py:273 | a string without a newline splits into itself alone |
| Text.SplitAround | claude_ai_service.py:273 | splitting `a + "\n" + b` is splitting `a` followed by splitting `b` |
| Text.JoinSplit | claude_ai_service.py:273-274 | `'\n'.join(s.split('\n')) == s` |
| Text.DigitChar | app.py:134 | a digit value below 10 renders as a decimal digit character |
| Text.Digits | cornell_scraper_modular.py:83 | `str(n)` is a non-empty string of decimal digits that starts with '0' only for the number 0, so it has no leading zero |
| Text.ZeroPad | app.py:134 | zero-padding yields all decimal digits, exactly `width` characters when `str(n)` is shorter and exactly `str(n)`'s length otherwise |
| Text.ParseDigits | cornell_scraper_modular.py:83 | reading back `str(n)` gives `n` |
| Text.ParseLeadingZeros | app.py:134 | leading zeros do not change the value read back |
| Text.ParseZeros | app.py:134 | a run of zeros reads back as 0 |
| Text.ParseZeroPad | app.py:134 | reading back a zero-padded number gives the number |
| Text.ZeroPadInjective | app.py:134 | distinct numbers have distinct zero-padded renderings at the same width |
| Text.PrefixCancel | app.py:134 | a common prefix cancels in an equality of strings |
| Config.ConstantsConsistent | config.py:26-38 | the urgent tier is shorter and scores higher than the normal tier, the bag bounds are ordered, and the discount is a proper fraction |
| Config.MoodFoodMapWellFormed | config.py:58-64 | every mood key of `MOOD_FOOD_MAP` is lower-case and every bonus lies in 7..10 |
| Config.MoodKeysLower | config.py:58-64 | every mood key of `MOOD_FOOD_MAP` is lower-case, so that `mood.lower()` can hit it |
| Config.MoodBonusesInRange | config.py:58-64 | every bonus in `MOOD_FOOD_MAP` lies in 7..10 |
| Models.Available | models.py:60-66 | at most as many items as the inventory, each from the inventory and not expired |
| Models.AvailableMembership | models.py:60-66 | an item is available exactly when it is in the inventory and its expiry is after `now` |
| Models.AvailableAppend | models.py:60-66 | availability filters a concatenation part by part, so inventory order is kept |
| Models.UnratedSumZero | models.py:30-32 | a food type that was never rated has a rating sum of 0 |
| Models.User.constructor | models.py:10-16 | a new profile has the given fields, an empty history and an empty score map |
| Models.User.GetPreferenceScore | models.py:30-32 | the score is the sum of all ratings for that food type, and 0 for a type never rated |
| Models.User.AddInteraction | models.py:18-28 | one history entry is appended, the type's score grows by the rating, every other type's score stays, and the score map stays the sum of the history |
| Models.Restaurant.constructor | models.py:49-54 | a new hall has the given attributes and an empty inventory |
| Models.Restaurant.AddSurplusFood | models.py:56-58 | the item is appended at the end and the rest of the inventory is unchanged |
| Models.Restaurant.GetItemById | models.py:68-73 | None exactly when no inventory item has the id; otherwise an inventory item with that id |
| Models.Restaurant.ToDict | models.py:75-84 | the summary carries the hall's id, name, location and cuisine type, the inventory size and the number of available items, which never exceeds the inventory size |
| Models.NewOrder | models.py:90-97 | a new order is `confirmed` and carries exactly the id, user, type, items and cost it was built from |
| Scoring.DiscountPrice | config.py:26 | the customer pays exactly 30% of the original price, between 0 and the full price for a non-negative price |
| Scoring.DiscountExample | app.py:124 | a 300-cent item costs 90 cents |
| Scoring.UrgencyBonus | app.py:171-178 | under 4 hours to expiry gives 15, from 4 to under 8 hours gives 10, otherwise 0, each as an if-and-only-if |
| Scoring.UrgencyMonotone | app.py:171-178 | an earlier expiry never lowers the urgency bonus |
| Scoring.GetMoodScore | app.py:182-185 | the lower-cased mood's table entry for the food type, and 0 when the mood or the food type is missing |
| Scoring.MoodScoreProperties | bhookh_buster.py:233-241 | moods equal up to letter case score alike, and with a well-formed table a bonus is 0 or within the table's range |
| Scoring.ScoreWithoutHistory | app.py:154-180 | without ratings and without a mood, the score is the dietary match bonus plus the urgency bonus |
| Scoring.ScoreAfterRating | models.py:18-28 | rating a food type changes the score of its items by twice the rating and leaves the scores of other items unchanged |
| Scoring.ScoreBoundsWithoutHistory | app_enhanced.py:205-231 | without ratings, with the configured mood table, every score lies in 0..35 |
| Ranking.Take | app.py:108 | a slice `s[:n]` has `min(n, len(s))` entries |
| Ranking.Insert | app.py:107 | insertion adds exactly one entry, and the multiset of entries grows by it |
| Ranking.InsertSorted | app.py:107 | inserting into a descending list keeps it descending |
| Ranking.SortDesc | app.py:107 | the sort is a permutation of its input and is descending by score |
| Ranking.InsertStable | app.py:107 | insertion places the new entry ahead of the entries with its score and keeps their order |
| Ranking.SortStable | app.py:107 | the sort is stable: the entries with any one score keep their input order |
| Ranking.WithScoreAppend | app.py:107 | the entries with one score in a concatenation are those of each part, in order |
| Ranking.TopKSelects | app.py:107-108 | top `k` has `min(k, len(s))` entries and is descending; together with the left-out entries it is a permutation of `s`; no left-out entry outscores a kept one |
| Ranking.TopKMembers | app.py:107-108 | every kept entry is an entry of the input |
| Ranking.TopKKeepsTieOrder | app.py:107-108 | for each score, the kept entries with that score are the first such entries of the input, in input order |
| Ranking.ScoreAll | app.py:96-104 | one entry per item, in item order, each with that item's score, its 30% price and the given reason |
| Ranking.ScoreAllMembers | app.py:96-104 | every scored entry is an input item with its own score and its own 30% price |
| Ranking.RankItems | app_enhanced.py:189-203 | the loop result equals the top `k` of the scored first `window` items |
| Sampling.RandInt | bhookh_buster.py:138 | the draw lies within the closed range |
| Sampling.Sample | bhookh_buster.py:139 | `k` entries from distinct positions of the pool: no value occurs more often than in the pool |
| Sampling.SampleMembers | app_enhanced.py:78 | a sample holds only entries of the pool |
| Sampling.SampleDistinct | app_enhanced.py:78 | a sample of a pool without repeats has no repeats |
| Sampling.TwoOccurrences | app_enhanced.py:78 | equal entries at two positions give a count of at least two |
| Sampling.DistinctCounts | app_enhanced.py:78 | in a sequence without repeats every value occurs at most once |
| Sampling.DistinctSnoc | data_manager.py:74 | appending a value not yet present keeps a sequence free of repeats |
| Inventory.LastWithId | data_manager.py:67-74 | the record left in place for an id is one of the records, and it carries that id |
| Inventory.PutAllSpec | data_manager.py:67-74 | putting hall records gives one hall per distinct id; the keys become the old keys followed by the new ids in first-occurrence order; a later duplicate replaces an earlier one with an empty inventory; other halls are left alone |
| Inventory.PutAllKeys | data_manager.py:67-74 | putting hall records keeps the table well formed and appends the new ids to the keys in first-occurrence order |
| Inventory.NewIdsMembership | data_manager.py:67-74 | the ids appended by loading are exactly the record ids missing from the table, each once |
| Inventory.IdsSnoc | data_manager.py:67-74 | the ids of a list are those of all but its last record, plus the last record's id |
| Inventory.PutSpec | data_manager.py:74 | putting one record keeps the table well formed and keeps its key order as a prefix |
| Inventory.AddAllSpec | data_manager.py:77-80 | adding items keeps the keys and hall attributes, each hall's inventory grows by exactly the items carrying its id in input order, and items of unknown halls vanish |
| Inventory.PopulateFresh | data_manager.py:62-80 | loading into an empty table gives exactly one hall per distinct id, with the last record's attributes and exactly the items that name it, in order |
| Inventory.NearbyProperties | bhookh_buster.py:224-225 | `_is_nearby` is symmetric and reflexive, and does not depend on the radius |
| Inventory.Listing | data_manager.py:142-147 | one listed entry per item, each annotated with its hall's name and location |
| Inventory.GatherMembership | data_manager.py:136-149 | an entry is gathered exactly when it is an available item of some taking-part hall, annotated with that hall |
| Inventory.PartMembership | data_manager.py:142-147 | an entry is in one hall's part exactly when it is an available item of that hall, taking part, annotated with that hall |
| Inventory.DataManager.constructor | data_manager.py:18-20 | a new manager has an empty, valid table |
| Inventory.DataManager.GetRestaurant | data_manager.py:132-134 | None exactly for an unknown id; otherwise the hall stored under that id |
| Inventory.DataManager.PopulateRestaurants | data_manager.py:62-87 | the table after the call is `Populate` of the table before, and stays valid |
| Inventory.DataManager.PutHall | data_manager.py:68-74 | the table after is `Put` of the table before, and every hall is an old hall or a fresh one |
| Inventory.DataManager.AddToHall | data_manager.py:77-80 | the table after is `AddItem` of the table before: the item is appended to its hall, or dropped for an unknown hall |
| Inventory.DataManager.RefreshData | data_manager.py:151-164 | succeeds exactly when data was fetched; then the table holds only that data, otherwise nothing changes |
| Inventory.DataManager.LoadDiningData | data_manager.py:22-44 | saved data wins over fetched data, which wins over the demo data; the result is true exactly when real data was loaded |
| Inventory.DataManager.LoadDemoData | data_manager.py:89-126 | the table after is the table before populated with the demo data |
| Inventory.DataManager.GetAllAvailableItems | data_manager.py:136-149 | every hall's available items, annotated, in table order, whatever location is passed |
| Inventory.DataManager.CollectAvailable | bhookh_buster.py:124-132 | the nested loop collects the available items of the taking-part halls, hall by hall in table order |
| Inventory.DataManager.HallPart | bhookh_buster.py:125-132 | one hall's contribution: its annotated available items if it takes part, else nothing |
| Inventory.GatherStep | data_manager.py:140-147 | one more hall extends the gathered list by exactly that hall's part |
| Inventory.ListAvailable | models.py:60-66 | the inner loop lists the hall's available items in inventory order, annotated with the hall |
| Scraper.DetermineCuisineType | cornell_scraper_modular.py:102-113 | in priority order, each as an if-and-only-if on the lower-cased name: "cafe" or "coffee" gives Cafe; otherwise "grill" gives American; otherwise "market" gives Market; no keyword gives Dining Hall |
| Scraper.CuisineIgnoresCase | cornell_scraper_modular.py:104 | names that differ only in letter case get the same cuisine type |
| Scraper.EateryIdInjective | cornell_scraper_modular.py:82 | distinct positions get distinct hall ids |
| Scraper.EateryLocation | cornell_scraper_modular.py:86-90 | a non-empty text area or an object's `descr` is used as given; an empty text area, an object without `descr`, a missing or a null area give "Central Campus" |
| Scraper.ProcessEatery | cornell_scraper_modular.py:80-100 | the id comes from the position, the name from `name`, then `displayName`, then "Dining Hall n", and the cuisine from the name |
| Scraper.TemplatesFor | cornell_scraper_modular.py:155 | every cuisine type has at least six menu templates |
| Scraper.MenuItemIdInjective | cornell_scraper_modular.py:167 | within one hall, distinct positions get distinct item ids |
| Scraper.GenerateMenuItems | cornell_scraper_modular.py:115-175 | 3 to 6 items, no more than there are templates, following templates drawn without replacement, each with a price within -20..+50 of its template, quantity 1..5, an allowed expiry and a position-based id |
| Scraper.GenerateFrom | cornell_scraper_modular.py:156-175 | from at least three templates, 3 to 6 items following templates drawn without replacement |
| Scraper.MakeItem | cornell_scraper_modular.py:165-173 | an item follows its template: price offset in -20..+50, quantity 1..5, expiry one of the allowed hour counts ahead, and the position-based id |
| Scraper.Eateries | cornell_scraper_modular.py:42-54 | an eatery list exists exactly for a `data` object or a non-empty list: the object's `eateries`, `[]` when that is missing, or the list itself |
| Scraper.TransformForBhookhBuster | cornell_scraper_modular.py:40-78 | None exactly for a falsy or unknown payload; otherwise one hall per eatery in order, and the items are the halls' own 3-to-6-item menus one after the other in hall order |
| Scraper.HallRecords | cornell_scraper_modular.py:59-61 | one hall record per eatery |
| Scraper.HallRecordsAt | cornell_scraper_modular.py:59-61 | the record at position `i` is the `i`-th eatery processed with index `i` |
| Scraper.ProcessEateries | cornell_scraper_modular.py:56-69 | the loop builds one hall record per eatery in order, and the items split into one menu per hall in hall order, each a 3-to-6-item menu of its own hall id, numbered from 1 |
| Scraper.ProcessOne | cornell_scraper_modular.py:59-67 | one pass of the loop gives the hall record of the eatery at that position and a 3-to-6-item menu numbered for that hall's id |
| Scraper.MenusBounds | cornell_scraper_modular.py:56-69 | per-hall menus of 3 to 6 items give 3 to 6 items per hall in total, and every item names one of the halls |
| Scraper.HallMenusExtend | cornell_scraper_modular.py:64-69 | appending the menu generated for the next hall extends the per-hall split by that hall |
| Scraper.NamesHallExtend | cornell_scraper_modular.py:64-69 | appending the menu of the next hall keeps every item tied to a hall built so far |
| Scraper.TransformedDataLoadsWhole | cornell_scraper_modular.py:40-78 | the produced halls have distinct ids and every item names one of them, so loading drops nothing |
| AiService.Summaries | claude_ai_service.py:152-166 | one summary per item, in order, marked urgent exactly when under 4 hours remain |
| AiService.PrepareItemsForClaude | claude_ai_service.py:148-168 | the loop summarises the first 20 items |
| AiService.CleanResponse | claude_ai_service.py:269-274 | a reply that does not start with a fence is only stripped |
| AiService.FenceRemoved | claude_ai_service.py:271-274 | a body wrapped in a fenced block, with or without a language tag, comes back exactly |
| AiService.FencedShape | claude_ai_service.py:270-271 | a fenced block has no surrounding whitespace and starts with the fence |
| AiService.SplitFenced | claude_ai_service.py:273 | the lines of a fenced block are the opening line, the body's lines and the closing fence |
| AiService.IndexById | claude_ai_service.py:279 | every indexed id maps to an item that carries it |
| AiService.IndexByIdDomain | claude_ai_service.py:279 | an id is indexed exactly when some item carries it |
| AiService.IndexByIdLastWins | claude_ai_service.py:279 | an id maps to the last item carrying it |
| AiService.MapRecsAppend | claude_ai_service.py:283-292 | mapping a concatenation runs the two halves in turn, and the first exception wins |
| AiService.UnknownIdDropped | claude_ai_service.py:285 | a recommendation for an id that is not available is dropped without affecting the others |
| AiService.MapRecsRaises | claude_ai_service.py:283-291 | the mapping raises exactly when some element raises: it is not an object, lacks an `item_id`, or has a known id but lacks a `score` |
| AiService.MapRecsEntries | claude_ai_service.py:283-292 | no more suggestions than recommendations, each an available item at the 30% price |
| AiService.ParseClaudeResponse | claude_ai_service.py:266-299 | the method computes the parse: an empty list on a decode error, otherwise the mapped recommendations or an exception |
| AiService.BuildIndex | claude_ai_service.py:279 | the loop builds the last-wins id index |
| AiService.MapRecommendations | claude_ai_service.py:282-294 | the loop computes the mapping and stops at the first exception |
| AiService.FallbackRecommendations | claude_ai_service.py:301-331 | the loop computes the fallback ranking |
| AiService.FallbackProperties | claude_ai_service.py:301-331 | `min(8, 12, len(items))` entries, sorted by score, each an item among the first 12 with a score in 20..45, the 30% price and the fixed reason |
| AiService.FallbackScoreBounds | claude_ai_service.py:307-321 | a fallback score lies in 20..45 |
| AiService.GetPersonalizedSuggestions | claude_ai_service.py:19-53 | the suggestions are the parsed reply, or the fallback ranking when the call or the parse raises |
| AiService.CallOutcome | claude_ai_service.py:42-48 | a failed call raises; a reply text gives the outcome of parsing it |
| AiService.PersonalizedShape | claude_ai_service.py:19-53 | every result is the fallback list, or suggestions that are all available items at the 30% price |
| AiService.FromReplyShape | claude_ai_service.py:42-53 | for any reply, the result is the fallback list or consists only of available items at the 30% price |
| AiService.DecodeErrorGivesNothing | claude_ai_service.py:296-299 | a reply that does not decode gives no suggestions, although the fallback would give some |
| AiService.ImpactProperties | claude_ai_service.py:104-131 | a reply comes back with only its leading and trailing whitespace removed; on failure the sentence states the number of saved meals, which reads back exactly |
| Marketplace.CandidatesMembership | bhookh_buster.py:124-132 | every candidate is an available item of some hall; the standalone service takes it only from a hall near the user |
| Marketplace.KeepMatching | app.py:149-152 | the filter never grows the list |
| Marketplace.KeepMatchingMembership | app.py:149-152 | an item is kept exactly when it is an input item whose food type contains some preference |
| Marketplace.FilterMembership | app.py:144-152 | without preferences everything passes; otherwise exactly the items matching some preference pass |
| Marketplace.ExactMatchPasses | app.py:149-152 | a food type listed among the preferences passes the filter |
| Marketplace.SubstringMatchEarnsNoBonus | app.py:151 | "veg" lets a "vegetarian" item through the filter, but the item earns no dietary bonus |
| Marketplace.PoolProperties | app_enhanced.py:67-71 | the pool holds only candidates; it is all candidates or only matching ones; with fallback it is non-empty when candidates exist; without fallback it is empty when nothing matches |
| Marketplace.DrawBag | app_enhanced.py:73-86 | a free bag for the user holding 3 to 5 entries of the pool (fewer only when the pool is smaller), none repeated beyond the pool |
| Marketplace.BagProperties | app_enhanced.py:73-86 | every bag item is a candidate, a pool without repeats gives a bag without repeats, and with fallback a bag is never empty |
| Marketplace.KeepMatchingSubsequence | app.py:149-152 | the filter keeps distinct items distinct |
| Marketplace.RankSuggestions | app.py:95-108 | the suggestions are the top 12 of all candidates by score |
| Marketplace.SuggestionsProperties | app.py:95-108 | `min(12, len(candidates))` suggestions, sorted by score, each a candidate with its own score and the 30% price, none outscored by a candidate left out |
| Marketplace.LeftOutIsDropped | app.py:107-108 | a candidate missing from the suggestions is among the entries left out |
| Marketplace.BasicSuggestionsProperties | app_enhanced.py:189-203 | `min(12, 15, len(candidates))` entries, sorted by score, each one of the first 15 candidates with its own score, the 30% price and the fixed reason |
| Marketplace.RankSuggestionsEnhanced | app_enhanced.py:88-112 | no candidates give no suggestions; a raising provider gives the basic ranking; otherwise the remote model's suggestions |
| Marketplace.EnhancedSuggestionsShape | app_enhanced.py:88-112 | every enhanced result is the remote fallback list, or consists only of candidates at the 30% price |
| Marketplace.OrderIdInjective | app.py:134 | distinct order numbers give distinct order ids |
| Marketplace.OrderIdsUnique | bhookh_buster.py:212 | orders numbered by position have pairwise distinct ids |
| Marketplace.OrderLinesMembership | app.py:122-128 | a line is there exactly for a selected candidate, at its 30% price, with no more lines than candidates |
| Marketplace.UnknownSelectionIgnored | app.py:123 | selecting extra ids that are unknown or already selected changes nothing |
| Marketplace.CostIsDiscountedTotal | app.py:129-138 | the order cost is exactly 30% of the selected items' original total |
| Marketplace.SelectLines | app.py:116-129 | the loop yields the order lines and their cost |
| Marketplace.LinesCostSnoc | app.py:129 | one more line adds its price to the cost |
| Marketplace.Service.constructor | app.py:34-38 | a new service has no users, no orders, a zero counter and the given hall table |
| Marketplace.Service.Standalone | bhookh_buster.py:62-109 | the standalone service starts with its demo halls and items loaded into an empty table, no users and no orders |
| Marketplace.Service.RegisterUser | app.py:40-44 | the user id maps to a fresh profile with the given preferences (empty when none); an existing profile is replaced; orders stay |
| Marketplace.Service.GetUser | app.py:46-48 | a profile exactly for a registered id |
| Marketplace.Service.Candidates | app.py:90 | the items a user can draw from: every hall's available items, or only nearby halls' items for the standalone service |
| Marketplace.Service.CreateSurpriseBag | app_enhanced.py:55-86 | unknown user and no candidates are errors; otherwise a free bag drawn from the preference pool |
| Marketplace.Service.GetAiSuggestions | app.py:83-108 | nothing for an unknown user; otherwise the ranked suggestions over that user's candidates |
| Marketplace.Service.GetAiSuggestionsEnhanced | app_enhanced.py:88-112 | nothing for an unknown user; otherwise the enhanced suggestions over that user's candidates |
| Marketplace.Service.BuildOrder | app_enhanced.py:138-170 | the order for the next position: the selected candidates, their 30% cost and, where the variant has it, the impact message |
| Marketplace.Service.CreateCustomOrder | app.py:110-142 | an unknown user changes nothing and gets an error; otherwise the order is returned and appended to the ledger without the impact message, numbered one past the previous ones, and the counter advances where the variant keeps one |

## Left out

- File and network I/O is not modelled: fetching and saving the dining payload,
  `_load_from_file`, `_call_claude_api` and the Flask routes. Their results enter
  as parameters, and the logging `print` calls are dropped.
- The prompt texts and `_build_user_profile` are not modelled: their only use is
  the prompt sent to the remote model, whose reply is a parameter.
- `get_meal_insights` in the AI service and in `app_enhanced.py` is not
  modelled: it only forwards a prompt and returns the reply or a fixed text.
- Expiry in floating-point hours is modelled in whole seconds, and
  `round(…, 1)` on the hours in a summary is not modelled.
- `round(…, 2)` on prices is not modelled: the model counts in tenths of a
  cent, where 30% of a whole-cent price is exact.
- Timestamps on bags, orders and interactions are not modelled.
- Lower-casing, `strip` and whitespace are ASCII only.
- `User.to_dict`, `Order.to_dict` and `get_all_restaurants` only serialise, and
  are not modelled. An order is a value that is returned as a whole.
- The `radius_km` argument of `_is_nearby` and the `mood` argument of
  `create_custom_order` are unused by the source, so they are not modelled.
- The `context` argument passed to the AI service only feeds the prompt, so it
  is not modelled.
- Records missing a `name` or an `id`, which crash the source, are not
  modelled. Item ids in a reply that are not strings are not modelled.
- A reply's `score` is copied into the suggestion whatever JSON value it is
  (8.5, a string, …). The model keeps integer scores only.
- Scraper.ProcessEateries: each hall's menu in the transformed data is tied to its hall by id, size and item numbering. The templates it was drawn from (the hall's cuisine) are stated on Scraper.GenerateMenuItems and are not carried into the transformed data.
- Scraper.TransformForBhookhBuster: as for Scraper.ProcessEateries, the link between a hall's cuisine and its menu's templates is stated on Scraper.GenerateMenuItems only.
- Marketplace.Service.CreateCustomOrder: standalone order lines also carry
  `restaurant_location`, which the source's lines lack. The model keeps one line
  type for all three services.
- Sampling.RandInt: does not model the uniform distribution of `random`, only
  its bounds.
- Sampling.Sample: does not model the distribution of `random.sample`, only its
  size and its draws from distinct positions.
- Marketplace.Service.BuildOrder: does not model the enhanced service's own
  fallback impact text ("Great job! …"). It cannot be reached, because
  `generate_food_waste_impact` catches every error itself.
- Marketplace.Service.GetAiSuggestionsEnhanced: the basic ranking is reached
  only when `get_personalized_suggestions` raises. That method catches its own
  errors, so an explicit `providerRaised` argument stands for the case.
- Marketplace.Service.GetAiSuggestions: the source's early `return []` when
  there are no candidates is not a separate branch. Ranking an empty list gives
  the same empty result.
