/** The marketplace service: user registration, free surprise bags, ranked
    suggestions and custom orders. `BhookhBusterService` of app.py and
    app_enhanced.py and `BhookhBuster` of bhookh_buster.py share one class,
    parameterised by a `Variant` that records where the three differ. */
module Marketplace {
  import opened Wrappers
  import opened Text
  import opened Config
  import opened Models
  import opened Scoring
  import opened Ranking
  import opened Sampling
  import opened Inventory
  import opened AiService

  // ---------------------------------------------------------------------------
  // Variants
  // ---------------------------------------------------------------------------

  /** Where a new order's number comes from: a counter field, or the length of
      the order ledger plus one. */
  datatype IdSource = Counter | LedgerLength

  /** What distinguishes the three services:
      - `nearbyOnly`: item scans keep only halls near the user;
      - `fallbackToAll`: a surprise bag falls back to every item when no item
        matches the user's preferences;
      - `moodTable`: the mood bonus table;
      - `idSource`: how order numbers are drawn;
      - `impactMessages`: orders carry an impact message. */
  datatype Variant = Variant(
    nearbyOnly: bool,
    fallbackToAll: bool,
    moodTable: MoodTable,
    idSource: IdSource,
    impactMessages: bool)

  /** The mood table written inline in the standalone service. */
  const STANDALONE_MOOD_MAP: MoodTable := map[
    "happy" := map["italian" := 10, "fast_food" := 8, "chinese" := 7],
    "stressed" := map["indian" := 10, "italian" := 8, "fast_food" := 7],
    "healthy" := map["healthy" := 10, "indian" := 5],
    "adventurous" := map["chinese" := 10, "indian" := 9, "italian" := 7],
    "tired" := map["fast_food" := 10, "italian" := 8, "indian" := 7]
  ]

  /** app.py */
  const PLAIN: Variant := Variant(false, true, MOOD_FOOD_MAP, Counter, false)
  /** app_enhanced.py */
  const ENHANCED: Variant := Variant(false, true, MOOD_FOOD_MAP, Counter, true)
  /** bhookh_buster.py */
  const STANDALONE: Variant := Variant(true, false, STANDALONE_MOOD_MAP, LedgerLength, false)

  const USER_NOT_FOUND: string := "User not found"
  const NO_FOOD_NEARBY: string := "No surplus food available nearby"

  /** The basic suggestion list scores only the first 15 items. */
  const BASIC_WINDOW: nat := 15
  const BASIC_REASON: string := "Matched to your preferences"

  // ---------------------------------------------------------------------------
  // Candidate items
  // ---------------------------------------------------------------------------

  /** The items a user sees: every hall's available items, or only those of
      halls near the user's location. */
  function CandidatesFor(t: Table, variant: Variant, location: string, now: int): seq<ListedItem> {
    Gather(t, t.keys, now, if variant.nearbyOnly then Some(location) else None)
  }

  /** A candidate is an available item of a listed hall, annotated with it; in
      the standalone service that hall is near the user. */
  lemma CandidatesMembership(t: Table, variant: Variant, location: string, now: int, x: ListedItem)
    requires x in CandidatesFor(t, variant, location, now)
    ensures exists i :: 0 <= i < |t.keys| && FromHall(t, t.keys[i], now, None, x)
    ensures variant.nearbyOnly ==> exists i :: 0 <= i < |t.keys| && FromHall(t, t.keys[i], now, Some(location), x)
  {
    var loc := if variant.nearbyOnly then Some(location) else None;
    GatherMembership(t, t.keys, now, loc, x);
    var i :| 0 <= i < |t.keys| && FromHall(t, t.keys[i], now, loc, x);
    assert FromHall(t, t.keys[i], now, None, x);
  }

  // ---------------------------------------------------------------------------
  // _filter_by_preferences
  // ---------------------------------------------------------------------------

  /** Some preference occurs as a substring of the food type. */
  predicate MatchesPreference(dietary: seq<string>, foodType: string) {
    exists j :: 0 <= j < |dietary| && IsSubstring(dietary[j], foodType)
  }

  /** The items whose food type contains some preference, in order. */
  function KeepMatching(items: seq<ListedItem>, dietary: seq<string>): (r: seq<ListedItem>)
    ensures |r| <= |items|
  {
    if items == [] then []
    else
      var last := items[|items| - 1];
      KeepMatching(items[..|items| - 1], dietary)
        + (if MatchesPreference(dietary, last.item.foodType) then [last] else [])
  }

  /** `_filter_by_preferences`: no preferences keep every item. */
  function FilterByPreferences(items: seq<ListedItem>, dietary: seq<string>): seq<ListedItem> {
    if dietary == [] then items else KeepMatching(items, dietary)
  }

  lemma {:induction false} KeepMatchingMembership(items: seq<ListedItem>, dietary: seq<string>, x: ListedItem)
    ensures x in KeepMatching(items, dietary) <==> x in items && MatchesPreference(dietary, x.item.foodType)
  {
    if items != [] {
      var init := items[..|items| - 1];
      KeepMatchingMembership(init, dietary, x);
      assert items == init + [items[|items| - 1]];
    }
  }

  /** An item survives the filter exactly when it is one of the items and either
      there are no preferences or one of them occurs in its food type. */
  lemma FilterMembership(items: seq<ListedItem>, dietary: seq<string>, x: ListedItem)
    ensures x in FilterByPreferences(items, dietary)
      <==> x in items && (dietary == [] || MatchesPreference(dietary, x.item.foodType))
  {
    if dietary != [] {
      KeepMatchingMembership(items, dietary, x);
    }
  }

  /** A food type listed verbatim among the preferences passes the filter. */
  lemma ExactMatchPasses(dietary: seq<string>, foodType: string)
    requires foodType in dietary
    ensures MatchesPreference(dietary, foodType)
  {
    var j :| 0 <= j < |dietary| && dietary[j] == foodType;
    SubstringReflexive(foodType, []);
  }

  /** The filter matches substrings while the dietary bonus needs an exact
      match: a "vegetarian" item passes the filter of a user who prefers "veg"
      but earns that user no dietary bonus. */
  lemma SubstringMatchEarnsNoBonus()
    ensures MatchesPreference(["veg"], "vegetarian")
    ensures DietaryTerm(["veg"], "vegetarian") == 0
  {
    assert OccursAt("veg", "vegetarian", 0);
    assert IsSubstring(["veg"][0], "vegetarian");
  }

  // ---------------------------------------------------------------------------
  // Surprise bags
  // ---------------------------------------------------------------------------

  /** The items a surprise bag is drawn from: the filtered items, or, where the
      service falls back, every item when none matches. */
  function PoolFor(variant: Variant, available: seq<ListedItem>, dietary: seq<string>): seq<ListedItem> {
    var filtered := FilterByPreferences(available, dietary);
    if filtered == [] && variant.fallbackToAll then available else filtered
  }

  /** The pool holds candidates only; each matches a preference unless the
      pool is the fallback to every item; with the fallback a non-empty
      candidate list never gives an empty pool, without it a user whose
      preferences match nothing gets an empty pool. */
  lemma PoolProperties(variant: Variant, available: seq<ListedItem>, dietary: seq<string>)
    ensures var pool := PoolFor(variant, available, dietary);
      && (forall x :: x in pool ==> x in available)
      && (pool == available
          || forall x :: x in pool ==> dietary == [] || MatchesPreference(dietary, x.item.foodType))
      && (variant.fallbackToAll && available != [] ==> pool != [])
      && ((!variant.fallbackToAll && dietary != []
           && forall x :: x in available ==> !MatchesPreference(dietary, x.item.foodType)) ==> pool == [])
  {
    var filtered := FilterByPreferences(available, dietary);
    forall x | x in filtered
      ensures x in available && (dietary == [] || MatchesPreference(dietary, x.item.foodType))
    {
      FilterMembership(available, dietary, x);
    }
    if !variant.fallbackToAll && dietary != []
       && (forall x :: x in available ==> !MatchesPreference(dietary, x.item.foodType))
    {
      if filtered != [] {
        var x := filtered[0];
        FilterMembership(available, dietary, x);
      }
    }
  }

  /** A surprise bag: free, for one user, with the items drawn. */
  datatype Bag = Bag(userId: string, items: seq<ListedItem>, cost: int)

  /** `bag` is a free bag for `userId` of between 3 and 5 items (fewer when the
      pool is smaller), drawn from distinct positions of `pool`. */
  predicate BagFrom(bag: Bag, userId: string, pool: seq<ListedItem>) {
    && bag.userId == userId
    && bag.cost == 0
    && Min(SURPRISE_BAG_MIN_ITEMS, |pool|) <= |bag.items| <= Min(SURPRISE_BAG_MAX_ITEMS, |pool|)
    && multiset(bag.items) <= multiset(pool)
  }

  /** Draws a bag size between 3 and 5 (at most the pool's size) and samples
      that many items of the pool. */
  method DrawBag(userId: string, pool: seq<ListedItem>) returns (bag: Bag)
    ensures BagFrom(bag, userId, pool)
  {
    var drawn := RandInt(SURPRISE_BAG_MIN_ITEMS, SURPRISE_BAG_MAX_ITEMS);
    var bagSize := Min(drawn, |pool|);
    var items := Sample(pool, bagSize);
    bag := Bag(userId, items, 0);
  }

  /** A bag holds only candidates and repeats none when the candidates are
      distinct; where the service falls back to every item, a user with any
      candidate gets a non-empty bag. */
  lemma BagProperties(bag: Bag, userId: string, variant: Variant, available: seq<ListedItem>, dietary: seq<string>)
    requires BagFrom(bag, userId, PoolFor(variant, available, dietary))
    ensures forall x :: x in bag.items ==> x in available
    ensures Distinct(available) ==> Distinct(bag.items)
    ensures variant.fallbackToAll && available != [] ==> |bag.items| >= 1
  {
    var pool := PoolFor(variant, available, dietary);
    PoolProperties(variant, available, dietary);
    SampleMembers(bag.items, pool);
    if Distinct(available) {
      if pool != available {
        KeepMatchingSubsequence(available, dietary);
      }
      SampleDistinct(bag.items, pool);
    }
  }

  /** Filtering keeps distinct items distinct. */
  lemma {:induction false} KeepMatchingSubsequence(items: seq<ListedItem>, dietary: seq<string>)
    requires Distinct(items)
    ensures Distinct(KeepMatching(items, dietary))
    ensures Distinct(FilterByPreferences(items, dietary))
  {
    if items != [] {
      var init := items[..|items| - 1];
      var last := items[|items| - 1];
      assert Distinct(init);
      KeepMatchingSubsequence(init, dietary);
      KeepMatchingMembership(init, dietary, last);
      assert last !in init;
    }
  }

  // ---------------------------------------------------------------------------
  // Suggestions
  // ---------------------------------------------------------------------------

  /** `_calculate_item_score` for one user profile and mood. */
  function Scorer(prefs: map<string, int>, dietary: seq<string>, mood: Option<string>,
                  now: int, table: MoodTable): ListedItem -> int
  {
    x => ItemScore(x, prefs, dietary, mood, now, table)
  }

  /** The ranking loop of `get_ai_suggestions` over every candidate. */
  method RankSuggestions(available: seq<ListedItem>, prefs: map<string, int>, dietary: seq<string>,
                         mood: Option<string>, now: int, table: MoodTable) returns (r: seq<Suggestion>)
    ensures r == Suggestions(available, prefs, dietary, mood, now, table)
  {
    r := RankItems(available, Scorer(prefs, dietary, mood, now, table), None, |available|, MAX_SUGGESTIONS);
    assert Take(available, |available|) == available;
  }

  /** `get_ai_suggestions` of the plain and standalone services: every candidate
      scored, sorted by score, the first 12 kept. */
  function Suggestions(available: seq<ListedItem>, prefs: map<string, int>, dietary: seq<string>,
                       mood: Option<string>, now: int, table: MoodTable): seq<Suggestion>
  {
    TopK(ScoreAll(available, Scorer(prefs, dietary, mood, now, table), None), MAX_SUGGESTIONS)
  }

  /** Up to 12 suggestions, best first; each is a candidate with its score and
      its 30% price; no suggestion scores below a candidate left out. */
  lemma SuggestionsProperties(available: seq<ListedItem>, prefs: map<string, int>, dietary: seq<string>,
                              mood: Option<string>, now: int, table: MoodTable)
    ensures var r := Suggestions(available, prefs, dietary, mood, now, table);
      && |r| == Min(MAX_SUGGESTIONS, |available|)
      && SortedDesc(r)
      && (forall x :: x in r ==>
            && x.listed in available
            && x.score == ItemScore(x.listed, prefs, dietary, mood, now, table)
            && x.discountPrice == DiscountPrice(x.listed.item.originalPrice)
            && x.reason.None?)
      && (forall x, y ::
            (x in r && y in ScoreAll(available, Scorer(prefs, dietary, mood, now, table), None) && y !in r)
            ==> x.score >= y.score)
  {
    var scorer := Scorer(prefs, dietary, mood, now, table);
    var s := ScoreAll(available, scorer, None);
    TopKSelects(s, MAX_SUGGESTIONS);
    TopKMembers(s, MAX_SUGGESTIONS);
    ScoreAllMembers(available, scorer, None);
    LeftOutIsDropped(s, MAX_SUGGESTIONS);
  }

  /** An entry of `s` that `TopK` does not keep is among the dropped ones. */
  lemma LeftOutIsDropped(s: seq<Suggestion>, k: nat)
    ensures forall y :: y in s && y !in TopK(s, k) ==> y in Dropped(s, k)
  {
    TopKSelects(s, k);
    forall y | y in s && y !in TopK(s, k) ensures y in Dropped(s, k) {
      assert y in multiset(s);
    }
  }

  /** `_basic_suggestions`: the first 15 candidates scored, sorted by score,
      the first 12 kept, each with a fixed reason. */
  function BasicSuggestions(available: seq<ListedItem>, prefs: map<string, int>, dietary: seq<string>,
                            mood: Option<string>, now: int, table: MoodTable): seq<Suggestion>
  {
    TopK(ScoreAll(Take(available, BASIC_WINDOW), Scorer(prefs, dietary, mood, now, table), Some(BASIC_REASON)),
         MAX_SUGGESTIONS)
  }

  /** The basic list has up to 12 entries, best first, drawn from the first 15
      candidates, each with its score, its 30% price and the fixed reason. */
  lemma BasicSuggestionsProperties(available: seq<ListedItem>, prefs: map<string, int>, dietary: seq<string>,
                                   mood: Option<string>, now: int, table: MoodTable)
    ensures var r := BasicSuggestions(available, prefs, dietary, mood, now, table);
      && |r| == Min(MAX_SUGGESTIONS, Min(BASIC_WINDOW, |available|))
      && SortedDesc(r)
      && (forall x :: x in r ==>
            && x.listed in Take(available, BASIC_WINDOW)
            && x.score == ItemScore(x.listed, prefs, dietary, mood, now, table)
            && x.discountPrice == DiscountPrice(x.listed.item.originalPrice)
            && x.reason == Some(BASIC_REASON))
  {
    var scorer := Scorer(prefs, dietary, mood, now, table);
    var s := ScoreAll(Take(available, BASIC_WINDOW), scorer, Some(BASIC_REASON));
    TopKSelects(s, MAX_SUGGESTIONS);
    TopKMembers(s, MAX_SUGGESTIONS);
    ScoreAllMembers(Take(available, BASIC_WINDOW), scorer, Some(BASIC_REASON));
  }

  /** `get_ai_suggestions` of the enhanced service: nothing without candidates,
      otherwise the remote ranking, or the basic list when that ranking raises. */
  function EnhancedSuggestions(available: seq<ListedItem>, prefs: map<string, int>, dietary: seq<string>,
                               mood: Option<string>, now: int, table: MoodTable,
                               callApi: seq<ItemSummary> -> ApiReply, decode: string -> Json,
                               providerRaised: bool): seq<Suggestion>
  {
    if available == [] then []
    else if providerRaised then BasicSuggestions(available, prefs, dietary, mood, now, table)
    else Personalized(available, dietary, now, callApi, decode)
  }

  /** The enhanced `get_ai_suggestions` once the candidates are known: an
      empty list gives no suggestions, otherwise the remote ranking is asked,
      and `_basic_suggestions` answers when it raises. */
  method RankSuggestionsEnhanced(available: seq<ListedItem>, prefs: map<string, int>, dietary: seq<string>,
                                 mood: Option<string>, now: int, table: MoodTable,
                                 callApi: seq<ItemSummary> -> ApiReply, decode: string -> Json,
                                 providerRaised: bool)
    returns (r: seq<Suggestion>)
    ensures r == EnhancedSuggestions(available, prefs, dietary, mood, now, table, callApi, decode, providerRaised)
  {
    if available == [] {
      return [];
    }
    if providerRaised {
      r := RankItems(available, Scorer(prefs, dietary, mood, now, table), Some(BASIC_REASON),
                     BASIC_WINDOW, MAX_SUGGESTIONS);
    } else {
      r := GetPersonalizedSuggestions(available, dietary, now, callApi, decode);
    }
  }

  /** Every enhanced suggestion list is the fallback ranking, or a list whose
      entries are all candidates priced at 30%. */
  lemma EnhancedSuggestionsShape(available: seq<ListedItem>, prefs: map<string, int>, dietary: seq<string>,
                                 mood: Option<string>, now: int, table: MoodTable,
                                 callApi: seq<ItemSummary> -> ApiReply, decode: string -> Json,
                                 providerRaised: bool)
    ensures var r := EnhancedSuggestions(available, prefs, dietary, mood, now, table, callApi, decode, providerRaised);
      r == Fallback(available, dietary, now)
      || forall x :: x in r ==> x.listed in available && x.discountPrice == DiscountPrice(x.listed.item.originalPrice)
  {
    if available != [] {
      if providerRaised {
        BasicSuggestionsProperties(available, prefs, dietary, mood, now, table);
        var r := BasicSuggestions(available, prefs, dietary, mood, now, table);
        forall x | x in r ensures x.listed in available {
          assert x.listed in Take(available, BASIC_WINDOW);
        }
      } else {
        PersonalizedShape(available, dietary, now, callApi, decode);
      }
    }
  }

  // ---------------------------------------------------------------------------
  // Custom orders
  // ---------------------------------------------------------------------------

  /** `f"ORD_{n:04d}"`. */
  function OrderId(n: nat): string {
    "ORD_" + ZeroPad(n, 4)
  }

  /** Distinct order numbers give distinct order ids. */
  lemma OrderIdInjective(m: nat, n: nat)
    requires OrderId(m) == OrderId(n)
    ensures m == n
  {
    PrefixCancel("ORD_", ZeroPad(m, 4), ZeroPad(n, 4));
    ZeroPadInjective(m, n, 4);
  }

  /** The ledger numbers its orders 1, 2, 3, ... */
  predicate NumberedInOrder(orders: seq<Order>) {
    forall i :: 0 <= i < |orders| ==> orders[i].orderId == OrderId(i + 1)
  }

  /** A ledger numbered in order has no duplicate order id. */
  lemma OrderIdsUnique(orders: seq<Order>)
    requires NumberedInOrder(orders)
    ensures forall i, j :: 0 <= i < j < |orders| ==> orders[i].orderId != orders[j].orderId
  {
    forall i, j | 0 <= i < j < |orders| ensures orders[i].orderId != orders[j].orderId {
      if orders[i].orderId == orders[j].orderId {
        OrderIdInjective(i + 1, j + 1);
      }
    }
  }

  /** One line per candidate whose id was selected, in candidate order, each at
      its 30% price. */
  function OrderLines(available: seq<ListedItem>, selected: seq<string>): seq<OrderLine> {
    if available == [] then []
    else
      var last := available[|available| - 1];
      OrderLines(available[..|available| - 1], selected)
        + (if last.item.itemId in selected then [OrderLine(last, DiscountPrice(last.item.originalPrice))] else [])
  }

  /** The sum of the lines' prices. */
  function LinesCost(lines: seq<OrderLine>): int {
    if lines == [] then 0 else LinesCost(lines[..|lines| - 1]) + lines[|lines| - 1].discountPrice
  }

  /** The sum of the lines' original prices. */
  function OriginalTotal(lines: seq<OrderLine>): int {
    if lines == [] then 0 else OriginalTotal(lines[..|lines| - 1]) + lines[|lines| - 1].listed.item.originalPrice
  }

  /** A line is in the order exactly when it is a selected candidate at its 30%
      price; there are never more lines than candidates. */
  lemma {:induction false} OrderLinesMembership(available: seq<ListedItem>, selected: seq<string>, l: OrderLine)
    ensures l in OrderLines(available, selected)
      <==> l.listed in available && l.listed.item.itemId in selected
           && l.discountPrice == DiscountPrice(l.listed.item.originalPrice)
    ensures |OrderLines(available, selected)| <= |available|
  {
    if available != [] {
      var init := available[..|available| - 1];
      OrderLinesMembership(init, selected, l);
      assert available == init + [available[|available| - 1]];
    }
  }

  /** Ids that name no candidate change nothing, and selecting an id twice
      adds no line. */
  lemma {:induction false} UnknownSelectionIgnored(available: seq<ListedItem>, selected: seq<string>, extra: seq<string>)
    requires forall x :: x in available ==> x.item.itemId !in extra || x.item.itemId in selected
    ensures OrderLines(available, selected + extra) == OrderLines(available, selected)
  {
    if available != [] {
      var init := available[..|available| - 1];
      assert forall x :: x in init ==> x in available;
      UnknownSelectionIgnored(init, selected, extra);
      assert available[|available| - 1] in available;
    }
  }

  /** The order's cost is 30% of the original prices of its lines. */
  lemma {:induction false} CostIsDiscountedTotal(lines: seq<OrderLine>)
    requires forall l :: l in lines ==> l.discountPrice == DiscountPrice(l.listed.item.originalPrice)
    ensures LinesCost(lines) == DiscountPrice(OriginalTotal(lines))
  {
    if lines != [] {
      var init := lines[..|lines| - 1];
      assert forall l :: l in init ==> l in lines;
      CostIsDiscountedTotal(init);
      assert lines[|lines| - 1] in lines;
      var p := OriginalTotal(init);
      var q := lines[|lines| - 1].listed.item.originalPrice;
      assert DiscountPrice(p) == 3 * p && DiscountPrice(q) == 3 * q && DiscountPrice(p + q) == 3 * (p + q);
    }
  }

  /** The custom-order loop: one line per selected candidate and the running
      total of their prices. */
  method SelectLines(available: seq<ListedItem>, selected: seq<string>)
    returns (lines: seq<OrderLine>, total: int)
    ensures lines == OrderLines(available, selected)
    ensures total == LinesCost(lines)
  {
    lines := [];
    total := 0;
    var i := 0;
    while i < |available|
      invariant 0 <= i <= |available|
      invariant lines == OrderLines(available[..i], selected)
      invariant total == LinesCost(lines)
    {
      var x := available[i];
      assert available[..i + 1][..i] == available[..i];
      if x.item.itemId in selected {
        var price := DiscountPrice(x.item.originalPrice);
        LinesCostSnoc(lines, OrderLine(x, price));
        lines := lines + [OrderLine(x, price)];
        total := total + price;
      }
      i := i + 1;
    }
    assert available[..i] == available;
  }

  lemma LinesCostSnoc(lines: seq<OrderLine>, l: OrderLine)
    ensures LinesCost(lines + [l]) == LinesCost(lines) + l.discountPrice
  {
    assert (lines + [l])[..|lines|] == lines;
  }

  /** The order placed as the ledger's `position`-th entry (counting from 0). */
  function PlacedOrder(variant: Variant, position: nat, userId: string, lines: seq<OrderLine>,
                       impactReply: ApiReply): Order
  {
    Order(OrderId(position + 1), userId, CustomBag, lines, LinesCost(lines), "confirmed",
          if variant.impactMessages then Some(FoodWasteImpact(|lines|, impactReply)) else None)
  }

  // ---------------------------------------------------------------------------
  // The standalone demo data
  // ---------------------------------------------------------------------------

  /** The five halls and twelve items the standalone service starts with,
      expiring in 3 or 8 hours. */
  function StandaloneDemoData(now: int): DiningData {
    var soon := now + 3 * SECONDS_PER_HOUR;
    var later := now + 8 * SECONDS_PER_HOUR;
    DiningData(
      [ RestaurantData("R001", "Spice Garden", "Mumbai Central", "Indian"),
        RestaurantData("R002", "Pizza Palace", "Andheri", "Italian"),
        RestaurantData("R003", "Green Bowl", "Bandra", "Healthy"),
        RestaurantData("R004", "Dragon Wok", "Mumbai Central", "Chinese"),
        RestaurantData("R005", "Burger Hub", "Andheri", "Fast Food") ],
      [ FoodItem("R001", "F001", "Paneer Tikka", "indian", 250, soon, 2),
        FoodItem("R001", "F002", "Dal Makhani", "indian", 180, later, 3),
        FoodItem("R001", "F003", "Naan Basket", "indian", 80, soon, 5),
        FoodItem("R002", "F004", "Margherita Pizza", "italian", 300, soon, 1),
        FoodItem("R002", "F005", "Pasta Alfredo", "italian", 280, later, 2),
        FoodItem("R003", "F006", "Quinoa Salad Bowl", "healthy", 220, soon, 2),
        FoodItem("R003", "F007", "Green Smoothie", "healthy", 120, later, 4),
        FoodItem("R003", "F008", "Grilled Veggie Wrap", "healthy", 150, soon, 3),
        FoodItem("R004", "F009", "Hakka Noodles", "chinese", 200, later, 2),
        FoodItem("R004", "F010", "Manchurian", "chinese", 180, soon, 3),
        FoodItem("R005", "F011", "Veggie Burger", "fast_food", 120, soon, 4),
        FoodItem("R005", "F012", "French Fries", "fast_food", 80, later, 5) ])
  }

  // ---------------------------------------------------------------------------
  // The service object
  // ---------------------------------------------------------------------------

  class Service {
    const variant: Variant
    const data: DataManager
    var users: map<string, User>
    var orders: seq<Order>
    var orderCounter: nat

    /** The hall table is well formed, the ledger is numbered 1, 2, 3, ... and
        a counter, where used, equals the number of orders. */
    ghost predicate Valid()
      reads this, data
    {
      && data.Valid()
      && (variant.idSource == Counter ==> orderCounter == |orders|)
      && NumberedInOrder(orders)
    }

    /** A service over an existing hall table, with no users and no orders. */
    constructor (variant: Variant, data: DataManager)
      requires data.Valid()
      ensures Valid()
      ensures this.variant == variant && this.data == data
      ensures users == map[] && orders == [] && orderCounter == 0
    {
      this.variant := variant;
      this.data := data;
      users := map[];
      orders := [];
      orderCounter := 0;
    }

    /** The standalone service: a fresh hall table filled with its demo data. */
    constructor Standalone(now: int)
      ensures Valid() && variant == STANDALONE && fresh(data)
      ensures data.View() == Populate(EmptyTable, StandaloneDemoData(now))
      ensures users == map[] && orders == [] && orderCounter == 0
    {
      var dm := new DataManager();
      dm.PopulateRestaurants(StandaloneDemoData(now));
      variant := STANDALONE;
      data := dm;
      users := map[];
      orders := [];
      orderCounter := 0;
    }

    /** `register_user`: a fresh profile under `userId`, replacing any profile
        already registered there; a missing preference list is empty. */
    method RegisterUser(userId: string, name: string, location: string, dietary: Option<seq<string>>)
      returns (user: User)
      requires Valid()
      modifies this
      ensures Valid()
      ensures fresh(user) && user.Valid()
      ensures user.userId == userId && user.name == name && user.location == location
      ensures user.dietaryPreferences == dietary.GetOr([])
      ensures user.interactionHistory == [] && user.preferencesScore == map[]
      ensures users == old(users)[userId := user]
      ensures orders == old(orders) && orderCounter == old(orderCounter)
    {
      user := new User(userId, name, location, dietary.GetOr([]));
      users := users[userId := user];
    }

    /** `get_user`: the profile registered under `userId`, if any. */
    function GetUser(userId: string): (r: Option<User>)
      reads this
      ensures r.Some? <==> userId in users
      ensures r.Some? ==> r.value == users[userId]
    {
      if userId in users then Some(users[userId]) else None
    }

    /** The item scan of the variant for a user at `location`. */
    method Candidates(location: string, now: int) returns (items: seq<ListedItem>)
      requires data.Valid()
      ensures items == CandidatesFor(data.View(), variant, location, now)
    {
      if variant.nearbyOnly {
        items := data.CollectAvailable(Some(location), now);
      } else {
        items := data.GetAllAvailableItems(Some(location), now);
      }
    }

    /** `create_surprise_bag`: an unknown user and an empty candidate list are
        errors; otherwise a free bag of 3 to 5 items drawn at random from the
        pool. Nothing is recorded. */
    method CreateSurpriseBag(userId: string, now: int) returns (r: Result<Bag, string>)
      requires Valid()
      ensures userId !in users ==> r == Err(USER_NOT_FOUND)
      ensures userId in users ==>
        var u := users[userId];
        var available := CandidatesFor(data.View(), variant, u.location, now);
        && (available == [] ==> r == Err(NO_FOOD_NEARBY))
        && (available != [] ==> r.Ok? && BagFrom(r.value, userId, PoolFor(variant, available, u.dietaryPreferences)))
    {
      if userId !in users {
        return Err(USER_NOT_FOUND);
      }
      var user := users[userId];
      var available := Candidates(user.location, now);
      if available == [] {
        return Err(NO_FOOD_NEARBY);
      }
      var filtered := FilterByPreferences(available, user.dietaryPreferences);
      if filtered == [] && variant.fallbackToAll {
        filtered := available;
      }
      assert filtered == PoolFor(variant, available, user.dietaryPreferences);
      var bag := DrawBag(userId, filtered);
      r := Ok(bag);
    }

    /** `get_ai_suggestions` of the plain and standalone services: nothing for
        an unknown user, otherwise the scored candidates, best first, at most 12. */
    method GetAiSuggestions(userId: string, mood: Option<string>, now: int) returns (r: seq<Suggestion>)
      requires Valid()
      ensures userId !in users ==> r == []
      ensures userId in users ==>
        var u := users[userId];
        r == Suggestions(CandidatesFor(data.View(), variant, u.location, now),
                         u.preferencesScore, u.dietaryPreferences, mood, now, variant.moodTable)
    {
      if userId !in users {
        return [];
      }
      var user := users[userId];
      var available := Candidates(user.location, now);
      r := RankSuggestions(available, user.preferencesScore, user.dietaryPreferences, mood, now, variant.moodTable);
      assert available == CandidatesFor(data.View(), variant, user.location, now);
    }

    /** `get_ai_suggestions` of the enhanced service: nothing for an unknown
        user or without candidates; otherwise the remote ranking, or the basic
        list when the ranking service raises. */
    method GetAiSuggestionsEnhanced(userId: string, mood: Option<string>, now: int,
                                    callApi: seq<ItemSummary> -> ApiReply, decode: string -> Json,
                                    providerRaised: bool)
      returns (r: seq<Suggestion>)
      requires Valid()
      ensures userId !in users ==> r == []
      ensures userId in users ==>
        var u := users[userId];
        r == EnhancedSuggestions(CandidatesFor(data.View(), variant, u.location, now),
                                 u.preferencesScore, u.dietaryPreferences, mood, now, variant.moodTable,
                                 callApi, decode, providerRaised)
    {
      if userId !in users {
        return [];
      }
      var user := users[userId];
      var available := Candidates(user.location, now);
      r := RankSuggestionsEnhanced(available, user.preferencesScore, user.dietaryPreferences, mood, now,
                                   variant.moodTable, callApi, decode, providerRaised);
      assert available == CandidatesFor(data.View(), variant, user.location, now);
    }

    /** The order `create_custom_order` builds for a registered user: one line
        per selected candidate at its 30% price, their total as the cost, the
        next order number and, where the variant adds one, the impact message. */
    method BuildOrder(userId: string, selected: seq<string>, now: int, impactReply: ApiReply)
      returns (order: Order)
      requires Valid() && userId in users
      ensures order == PlacedOrder(variant, |orders|, userId,
                                   OrderLines(CandidatesFor(data.View(), variant, users[userId].location, now), selected),
                                   impactReply)
    {
      var user := users[userId];
      var available := Candidates(user.location, now);
      var lines, total := SelectLines(available, selected);
      var impact := if variant.impactMessages then Some(FoodWasteImpact(|lines|, impactReply)) else None;
      var number := if variant.idSource == Counter then orderCounter + 1 else |orders| + 1;
      order := Order(OrderId(number), userId, CustomBag, lines, total, "confirmed", impact);
      assert available == CandidatesFor(data.View(), variant, user.location, now);
    }

    /** `create_custom_order`: an unknown user is an error and changes nothing;
        otherwise the built order is returned, the ledger gets it without the
        impact message (which only the returned copy carries), and a counter,
        where used, moves on by one. */
    method CreateCustomOrder(userId: string, selected: seq<string>, now: int, impactReply: ApiReply)
      returns (r: Result<Order, string>)
      requires Valid()
      modifies this
      ensures Valid()
      ensures users == old(users)
      ensures userId !in users ==>
        r == Err(USER_NOT_FOUND) && orders == old(orders) && orderCounter == old(orderCounter)
      ensures userId in users ==>
        var lines := OrderLines(old(CandidatesFor(data.View(), variant, users[userId].location, now)), selected);
        && r == Ok(PlacedOrder(variant, |old(orders)|, userId, lines, impactReply))
        && orders == old(orders) + [r.value.(impactMessage := None)]
        && orderCounter == old(orderCounter) + (if variant.idSource == Counter then 1 else 0)
    {
      if userId !in users {
        return Err(USER_NOT_FOUND);
      }
      var order := BuildOrder(userId, selected, now, impactReply);
      if variant.idSource == Counter {
        orderCounter := orderCounter + 1;
      }
      orders := orders + [order.(impactMessage := None)];
      r := Ok(order);
    }
  }
}
