/** `CornellDiningScraper`: turning the campus dining payload into hall records
    and generated surplus menus. Fetching and saving are left out; the payload
    arrives already decoded, and the random draws are nondeterministic choices. */
module Scraper {
  import opened Wrappers
  import opened Text
  import opened Config
  import opened Models
  import opened Sampling
  import opened Inventory

  // ---------------------------------------------------------------------------
  // Raw payload
  // ---------------------------------------------------------------------------

  /** The `campusArea` field of an eatery: missing, an object (with or without
      `descr`), null, or a plain value. */
  datatype CampusArea = AreaAbsent | AreaDict(descr: Option<string>) | AreaNull | AreaText(text: string)

  /** One eatery record; `name` and `displayName` may be missing. */
  datatype RawEatery = RawEatery(name: Option<string>, displayName: Option<string>, campusArea: CampusArea)

  /** The decoded payload. `Falsy` is any empty or false value other than a list
      (None, {}, "", 0); `DataDict` an object with a `data` object, holding
      `eateries` or not; `OtherDict` a non-empty object without `data`;
      `EateryList` a list; `OtherValue` anything else. */
  datatype RawPayload =
    | Falsy
    | DataDict(eateries: Option<seq<RawEatery>>)
    | OtherDict
    | EateryList(list: seq<RawEatery>)
    | OtherValue

  const DEFAULT_LOCATION: string := "Central Campus"

  // ---------------------------------------------------------------------------
  // _determine_cuisine_type
  // ---------------------------------------------------------------------------

  const CUISINE_TYPES: set<string> := {"Cafe", "American", "Market", "Dining Hall"}

  /** Keywords of the lower-cased name, checked in priority order: "cafe" or
      "coffee", then "grill", then "market"; no keyword gives "Dining Hall". */
  function DetermineCuisineType(name: string): (c: string)
    ensures c in CUISINE_TYPES
    ensures c == "Cafe" <==> IsSubstring("cafe", Lower(name)) || IsSubstring("coffee", Lower(name))
    ensures c == "American" <==>
      !IsSubstring("cafe", Lower(name)) && !IsSubstring("coffee", Lower(name))
      && IsSubstring("grill", Lower(name))
    ensures c == "Market" <==>
      !IsSubstring("cafe", Lower(name)) && !IsSubstring("coffee", Lower(name))
      && !IsSubstring("grill", Lower(name)) && IsSubstring("market", Lower(name))
    ensures c == "Dining Hall" <==>
      !IsSubstring("cafe", Lower(name)) && !IsSubstring("coffee", Lower(name))
      && !IsSubstring("grill", Lower(name)) && !IsSubstring("market", Lower(name))
  {
    var nameLower := Lower(name);
    if IsSubstring("cafe", nameLower) || IsSubstring("coffee", nameLower) then "Cafe"
    else if IsSubstring("grill", nameLower) then "American"
    else if IsSubstring("market", nameLower) then "Market"
    else "Dining Hall"
  }

  /** Names that differ only in letter case get the same cuisine type. */
  lemma CuisineIgnoresCase(n1: string, n2: string)
    requires Lower(n1) == Lower(n2)
    ensures DetermineCuisineType(n1) == DetermineCuisineType(n2)
  {
  }

  // ---------------------------------------------------------------------------
  // _process_eatery
  // ---------------------------------------------------------------------------

  /** `f"R{str(idx+1).zfill(3)}"`. */
  function EateryId(idx: nat): string {
    "R" + ZeroPad(idx + 1, 3)
  }

  /** Distinct positions get distinct hall ids. */
  lemma EateryIdInjective(i: nat, j: nat)
    requires EateryId(i) == EateryId(j)
    ensures i == j
  {
    PrefixCancel("R", ZeroPad(i + 1, 3), ZeroPad(j + 1, 3));
    ZeroPadInjective(i + 1, j + 1, 3);
  }

  /** `campusArea`: an object gives its `descr` (default "Central Campus", also
      when the field is missing); a falsy value gives "Central Campus"; any other
      value is kept. */
  function EateryLocation(area: CampusArea): (loc: string)
    ensures area.AreaText? && area.text != "" ==> loc == area.text
    ensures area.AreaDict? && area.descr.Some? ==> loc == area.descr.value
    ensures area.AreaText? && area.text == "" ==> loc == DEFAULT_LOCATION
    ensures area.AreaDict? && area.descr.None? ==> loc == DEFAULT_LOCATION
    ensures area.AreaAbsent? || area.AreaNull? ==> loc == DEFAULT_LOCATION
  {
    match area
    case AreaAbsent => DEFAULT_LOCATION
    case AreaDict(descr) => descr.GetOr(DEFAULT_LOCATION)
    case AreaNull => DEFAULT_LOCATION
    case AreaText(text) => if text == "" then DEFAULT_LOCATION else text
  }

  /** One hall record per eatery: id from the position, name from `name`, else
      `displayName`, else "Dining Hall n"; cuisine type from the name. */
  function ProcessEatery(eatery: RawEatery, idx: nat): (r: RestaurantData)
    ensures r.id == EateryId(idx)
    ensures eatery.name.Some? ==> r.name == eatery.name.value
    ensures eatery.name.None? && eatery.displayName.Some? ==> r.name == eatery.displayName.value
    ensures eatery.name.None? && eatery.displayName.None? ==> r.name == "Dining Hall " + Digits(idx + 1)
    ensures r.location == EateryLocation(eatery.campusArea)
    ensures r.cuisineType == DetermineCuisineType(r.name)
  {
    var name := eatery.name.GetOr(eatery.displayName.GetOr("Dining Hall " + Digits(idx + 1)));
    RestaurantData(EateryId(idx), name, EateryLocation(eatery.campusArea), DetermineCuisineType(name))
  }

  // ---------------------------------------------------------------------------
  // _generate_menu_items
  // ---------------------------------------------------------------------------

  /** A menu template: item name, food type and base price in cents. */
  datatype MenuTemplate = MenuTemplate(name: string, foodType: string, basePrice: int)

  const DINING_HALL_MENU: seq<MenuTemplate> := [
    MenuTemplate("Pasta Station Special", "italian", 280),
    MenuTemplate("Stir Fry Bowl", "asian", 250),
    MenuTemplate("Salad Bar Selection", "healthy", 200),
    MenuTemplate("Sandwich Station", "american", 220),
    MenuTemplate("Pizza Slice", "italian", 180),
    MenuTemplate("Veggie Burger", "vegetarian", 190),
    MenuTemplate("Chicken Wrap", "american", 240),
    MenuTemplate("Rice Bowl", "asian", 230)
  ]

  const CAFE_MENU: seq<MenuTemplate> := [
    MenuTemplate("Espresso Drink", "beverage", 150),
    MenuTemplate("Pastry Selection", "bakery", 120),
    MenuTemplate("Panini", "italian", 240),
    MenuTemplate("Salad Bowl", "healthy", 210),
    MenuTemplate("Smoothie", "healthy", 160),
    MenuTemplate("Breakfast Sandwich", "american", 190)
  ]

  const AMERICAN_MENU: seq<MenuTemplate> := [
    MenuTemplate("Burger Combo", "american", 300),
    MenuTemplate("Chicken Wings", "american", 280),
    MenuTemplate("Fries Basket", "american", 150),
    MenuTemplate("Club Sandwich", "american", 260),
    MenuTemplate("BBQ Platter", "american", 320),
    MenuTemplate("Mac and Cheese", "american", 210)
  ]

  const MARKET_MENU: seq<MenuTemplate> := [
    MenuTemplate("Grab & Go Salad", "healthy", 190),
    MenuTemplate("Sushi Roll", "asian", 320),
    MenuTemplate("Sandwich Wrap", "american", 210),
    MenuTemplate("Fruit Cup", "healthy", 140),
    MenuTemplate("Protein Box", "healthy", 260),
    MenuTemplate("Veggie Sushi", "vegetarian", 290)
  ]

  /** `menu_templates.get(cuisine_type, menu_templates['Dining Hall'])`. */
  function TemplatesFor(cuisineType: string): (ts: seq<MenuTemplate>)
    ensures |ts| >= 6
  {
    if cuisineType == "Cafe" then CAFE_MENU
    else if cuisineType == "American" then AMERICAN_MENU
    else if cuisineType == "Market" then MARKET_MENU
    else DINING_HALL_MENU
  }

  /** Hours until expiry that a generated item may get. */
  const EXPIRY_HOURS: seq<int> := [2, 3, 4, 6, 7, 8, 10]

  const MIN_MENU_ITEMS: nat := 3
  const MAX_MENU_ITEMS: nat := 6

  /** `f"{restaurant_id}_F{str(idx+1).zfill(3)}"`. */
  function MenuItemId(restaurantId: string, idx: nat): string {
    (restaurantId + "_F") + ZeroPad(idx + 1, 3)
  }

  /** Within one hall, distinct positions get distinct item ids. */
  lemma MenuItemIdInjective(restaurantId: string, i: nat, j: nat)
    requires MenuItemId(restaurantId, i) == MenuItemId(restaurantId, j)
    ensures i == j
  {
    PrefixCancel(restaurantId + "_F", ZeroPad(i + 1, 3), ZeroPad(j + 1, 3));
    ZeroPadInjective(i + 1, j + 1, 3);
  }

  /** A generated item follows its template: same name and food type, price
      within -20..+50 cents of the base price. */
  predicate FromTemplate(x: FoodItem, t: MenuTemplate) {
    x.name == t.name && x.foodType == t.foodType && t.basePrice - 20 <= x.originalPrice <= t.basePrice + 50
  }

  /** A generated item of hall `restaurantId`: quantity 1..5 and an expiry a
      whole number of the allowed hours after `now`. */
  predicate GeneratedFor(x: FoodItem, restaurantId: string, now: int) {
    && x.restaurantId == restaurantId
    && 1 <= x.quantity <= 5
    && (exists h | h in EXPIRY_HOURS :: x.expiry == now + h * SECONDS_PER_HOUR)
  }

  /** A hall's generated menu: 3 to 6 items of hall `restaurantId`, numbered
      from 1. */
  ghost predicate NumberedMenu(items: seq<FoodItem>, restaurantId: string, now: int) {
    && MIN_MENU_ITEMS <= |items| <= MAX_MENU_ITEMS
    && forall i :: 0 <= i < |items| ==>
         GeneratedFor(items[i], restaurantId, now) && items[i].itemId == MenuItemId(restaurantId, i)
  }

  /** The items follow the templates `picked`, one each, drawn without
      replacement from `templates`. */
  ghost predicate DrawnFrom(items: seq<FoodItem>, picked: seq<MenuTemplate>, templates: seq<MenuTemplate>) {
    && |picked| == |items| && |items| <= |templates|
    && multiset(picked) <= multiset(templates)
    && forall i :: 0 <= i < |items| ==> FromTemplate(items[i], picked[i])
  }

  /** Draws 3 to min(6, |templates|) distinct templates of the hall's cuisine
      type and makes one item of each, numbered from 1 in draw order. */
  method GenerateMenuItems(restaurantId: string, cuisineType: string, now: int) returns (items: seq<FoodItem>)
    ensures NumberedMenu(items, restaurantId, now)
    ensures exists picked :: DrawnFrom(items, picked, TemplatesFor(cuisineType))
  {
    items := GenerateFrom(restaurantId, TemplatesFor(cuisineType), now);
    ghost var picked: seq<MenuTemplate> :|
      && |picked| == |items|
      && multiset(picked) <= multiset(TemplatesFor(cuisineType))
      && forall i :: 0 <= i < |items| ==> FromTemplate(items[i], picked[i]);
    assert DrawnFrom(items, picked, TemplatesFor(cuisineType));
  }

  /** The menu drawn from a list of at least three templates. */
  method GenerateFrom(restaurantId: string, templates: seq<MenuTemplate>, now: int) returns (items: seq<FoodItem>)
    requires |templates| >= MIN_MENU_ITEMS
    ensures MIN_MENU_ITEMS <= |items| <= MAX_MENU_ITEMS && |items| <= |templates|
    ensures forall i :: 0 <= i < |items| ==>
      GeneratedFor(items[i], restaurantId, now) && items[i].itemId == MenuItemId(restaurantId, i)
    ensures exists picked: seq<MenuTemplate> ::
      && |picked| == |items|
      && multiset(picked) <= multiset(templates)
      && forall i :: 0 <= i < |items| ==> FromTemplate(items[i], picked[i])
  {
    var numItems := RandInt(MIN_MENU_ITEMS, if |templates| < MAX_MENU_ITEMS then |templates| else MAX_MENU_ITEMS);
    var selected := Sample(templates, numItems);
    items := [];
    var idx := 0;
    while idx < |selected|
      invariant 0 <= idx <= |selected|
      invariant |items| == idx
      invariant forall i :: 0 <= i < idx ==>
        GeneratedFor(items[i], restaurantId, now) && items[i].itemId == MenuItemId(restaurantId, i)
        && FromTemplate(items[i], selected[i])
    {
      var item := MakeItem(restaurantId, idx, selected[idx], now);
      items := items + [item];
      idx := idx + 1;
    }
    assert |selected| == |items| && multiset(selected) <= multiset(templates);
  }

  /** One generated item: random expiry hours, price offset and quantity. */
  method MakeItem(restaurantId: string, idx: nat, t: MenuTemplate, now: int) returns (item: FoodItem)
    ensures GeneratedFor(item, restaurantId, now) && item.itemId == MenuItemId(restaurantId, idx)
    ensures FromTemplate(item, t)
  {
    var hourIdx := RandInt(0, |EXPIRY_HOURS| - 1);
    var expiryHours := EXPIRY_HOURS[hourIdx];
    var priceDelta := RandInt(-20, 50);
    var quantity := RandInt(1, 5);
    item := FoodItem(restaurantId, MenuItemId(restaurantId, idx), t.name, t.foodType,
      t.basePrice + priceDelta, now + expiryHours * SECONDS_PER_HOUR, quantity);
    assert expiryHours in EXPIRY_HOURS;
  }

  // ---------------------------------------------------------------------------
  // transform_for_bhookh_buster
  // ---------------------------------------------------------------------------

  /** The eatery list a payload yields, or None for a falsy or unknown shape. */
  function Eateries(raw: RawPayload): (r: Option<seq<RawEatery>>)
    ensures r.Some? <==> raw.DataDict? || (raw.EateryList? && raw.list != [])
    ensures raw.DataDict? && raw.eateries.Some? ==> r == Some(raw.eateries.value)
    ensures raw.DataDict? && raw.eateries.None? ==> r == Some([])
    ensures raw.EateryList? && raw.list != [] ==> r == Some(raw.list)
  {
    match raw
    case Falsy => None
    case DataDict(eateries) => Some(eateries.GetOr([]))
    case OtherDict => None
    case EateryList(list) => if list == [] then None else Some(list)
    case OtherValue => None
  }

  /** The item was generated for one of the first `n` halls. */
  predicate NamesHall(x: FoodItem, n: nat, now: int) {
    exists i | 0 <= i < n :: GeneratedFor(x, EateryId(i), now)
  }

  /** None for a falsy or unknown payload; otherwise the data built from its
      eateries. */
  method TransformForBhookhBuster(raw: RawPayload, now: int) returns (r: Option<DiningData>)
    ensures r.Some? <==> Eateries(raw).Some?
    ensures r.Some? ==> Transformed(r.value, Eateries(raw).value, now)
  {
    var maybe := Eateries(raw);
    if maybe.None? {
      return None;
    }
    var data := ProcessEateries(maybe.value, now);
    return Some(data);
  }

  /** The hall records of a list of eateries, numbered by position. */
  function HallRecords(eateries: seq<RawEatery>): (rs: seq<RestaurantData>)
    ensures |rs| == |eateries|
  {
    if eateries == [] then []
    else HallRecords(eateries[..|eateries| - 1]) + [ProcessEatery(eateries[|eateries| - 1], |eateries| - 1)]
  }

  /** The record at position `i` is the `i`-th eatery processed with index `i`. */
  lemma {:induction false} HallRecordsAt(eateries: seq<RawEatery>, i: nat)
    requires i < |eateries|
    ensures HallRecords(eateries)[i] == ProcessEatery(eateries[i], i)
  {
    var n := |eateries|;
    if i < n - 1 {
      HallRecordsAt(eateries[..n - 1], i);
    }
  }

  /** The concatenation of a list of lists, in order. */
  function Concat<T>(ss: seq<seq<T>>): seq<T> {
    if ss == [] then [] else Concat(ss[..|ss| - 1]) + ss[|ss| - 1]
  }

  /** `foodItems` is the menus of the first `|menus|` halls, one after the other
      in hall order, the `i`-th menu generated for hall `EateryId(i)`. */
  ghost predicate HallMenus(foodItems: seq<FoodItem>, menus: seq<seq<FoodItem>>, now: int) {
    && foodItems == Concat(menus)
    && forall i :: 0 <= i < |menus| ==> NumberedMenu(menus[i], EateryId(i), now)
  }

  /** One hall per eatery, in order; the items are the halls' own menus in hall
      order, so 3 to 6 per hall; and every generated item names one of the
      halls. */
  ghost predicate Transformed(data: DiningData, eateries: seq<RawEatery>, now: int) {
    && data.restaurants == HallRecords(eateries)
    && (exists menus :: |menus| == |eateries| && HallMenus(data.foodItems, menus, now))
    && MIN_MENU_ITEMS * |eateries| <= |data.foodItems| <= MAX_MENU_ITEMS * |eateries|
    && (forall x :: x in data.foodItems ==> NamesHall(x, |eateries|, now))
  }

  /** The loop over the eateries: a hall record each, and its menu appended. */
  method ProcessEateries(eateries: seq<RawEatery>, now: int) returns (data: DiningData)
    ensures Transformed(data, eateries, now)
  {
    var restaurants: seq<RestaurantData> := [];
    var foodItems: seq<FoodItem> := [];
    ghost var menus: seq<seq<FoodItem>> := [];
    var idx := 0;
    while idx < |eateries|
      invariant 0 <= idx <= |eateries|
      invariant restaurants == HallRecords(eateries[..idx])
      invariant |menus| == idx && HallMenus(foodItems, menus, now)
    {
      var restaurantData, menuItems := ProcessOne(eateries[idx], idx, now);
      assert eateries[..idx + 1][..idx] == eateries[..idx];
      restaurants := restaurants + [restaurantData];
      HallMenusExtend(foodItems, menus, menuItems, now);
      foodItems := foodItems + menuItems;
      menus := menus + [menuItems];
      idx := idx + 1;
    }
    assert eateries[..idx] == eateries;
    MenusBounds(menus, now);
    data := DiningData(restaurants, foodItems);
  }

  /** One pass of the loop: the hall record of the eatery at `idx`, and a menu
      generated for it. */
  method ProcessOne(eatery: RawEatery, idx: nat, now: int) returns (restaurantData: RestaurantData, menuItems: seq<FoodItem>)
    ensures restaurantData == ProcessEatery(eatery, idx)
    ensures NumberedMenu(menuItems, EateryId(idx), now)
  {
    restaurantData := ProcessEatery(eatery, idx);
    menuItems := GenerateMenuItems(restaurantData.id, restaurantData.cuisineType, now);
  }

  /** Appending the menu generated for the next hall extends the split by that
      hall. */
  lemma HallMenusExtend(foodItems: seq<FoodItem>, menus: seq<seq<FoodItem>>, menuItems: seq<FoodItem>, now: int)
    requires HallMenus(foodItems, menus, now)
    requires NumberedMenu(menuItems, EateryId(|menus|), now)
    ensures HallMenus(foodItems + menuItems, menus + [menuItems], now)
  {
    var ms := menus + [menuItems];
    assert ms[..|ms| - 1] == menus;
    forall i | 0 <= i < |ms| ensures NumberedMenu(ms[i], EateryId(i), now) {
      if i < |menus| {
        assert ms[i] == menus[i];
      }
    }
  }

  /** The per-hall split gives 3 to 6 items per hall, and every item names one of
      the halls it covers. */
  lemma {:induction false} MenusBounds(menus: seq<seq<FoodItem>>, now: int)
    requires HallMenus(Concat(menus), menus, now)
    ensures MIN_MENU_ITEMS * |menus| <= |Concat(menus)| <= MAX_MENU_ITEMS * |menus|
    ensures forall x :: x in Concat(menus) ==> NamesHall(x, |menus|, now)
  {
    if menus != [] {
      var n := |menus| - 1;
      var init := menus[..n];
      assert forall i :: 0 <= i < n ==> init[i] == menus[i];
      MenusBounds(init, now);
      assert NumberedMenu(menus[n], EateryId(n), now);
      NamesHallExtend(Concat(init), menus[n], n, now);
    }
  }

  /** Appending the menu of hall `idx` to items of the first `idx` halls gives
      items of the first `idx + 1` halls. */
  lemma NamesHallExtend(foodItems: seq<FoodItem>, menuItems: seq<FoodItem>, idx: nat, now: int)
    requires forall x :: x in foodItems ==> NamesHall(x, idx, now)
    requires forall i :: 0 <= i < |menuItems| ==> GeneratedFor(menuItems[i], EateryId(idx), now)
    ensures forall x :: x in foodItems + menuItems ==> NamesHall(x, idx + 1, now)
  {
    forall x | x in foodItems + menuItems ensures NamesHall(x, idx + 1, now) {
      if x in foodItems {
        var i :| 0 <= i < idx && GeneratedFor(x, EateryId(i), now);
      } else {
        var k :| 0 <= k < |menuItems| && menuItems[k] == x;
        assert GeneratedFor(x, EateryId(idx), now);
      }
    }
  }

  /** The halls of a transformed payload have pairwise distinct ids, so loading it
      keeps every hall; and every generated item names one of them, so loading
      keeps every item. */
  lemma TransformedDataLoadsWhole(data: DiningData, eateries: seq<RawEatery>, now: int)
    requires Transformed(data, eateries, now)
    ensures forall i, j :: 0 <= i < j < |data.restaurants| ==> data.restaurants[i].id != data.restaurants[j].id
    ensures forall x :: x in data.foodItems ==> x.restaurantId in Ids(data.restaurants)
  {
    forall i, j | 0 <= i < j < |data.restaurants| ensures data.restaurants[i].id != data.restaurants[j].id {
      HallRecordsAt(eateries, i);
      HallRecordsAt(eateries, j);
      if data.restaurants[i].id == data.restaurants[j].id {
        EateryIdInjective(i, j);
      }
    }
    forall x | x in data.foodItems ensures x.restaurantId in Ids(data.restaurants) {
      var i :| 0 <= i < |eateries| && GeneratedFor(x, EateryId(i), now);
      HallRecordsAt(eateries, i);
      assert data.restaurants[i].id == x.restaurantId;
    }
  }
}
