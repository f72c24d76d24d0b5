/** The dining-hall table of `DataManager`: loading, refreshing, lookups and the
    flattened list of available items. The Python dict of halls keeps insertion
    order, and re-assigning an existing id keeps its position; the table is
    therefore an ordered key list plus a map. */
module Inventory {
  import opened Wrappers
  import opened Text
  import opened Models
  import opened Sampling

  // ---------------------------------------------------------------------------
  // The table as a value, and what loading does to it
  // ---------------------------------------------------------------------------

  /** Hall ids in insertion order and the hall each id maps to. */
  datatype Table = Table(keys: seq<string>, halls: map<string, HallView>)

  const EmptyTable := Table([], map[])

  ghost predicate WellFormed(t: Table) {
    Distinct(t.keys) && forall k :: k in t.halls <==> k in t.keys
  }

  /** A dining-hall record of the ingested data. */
  datatype RestaurantData = RestaurantData(id: string, name: string, location: string, cuisineType: string)

  /** The ingested data set: halls and food items. */
  datatype DiningData = DiningData(restaurants: seq<RestaurantData>, foodItems: seq<FoodItem>)

  /** `self.restaurants[id] = Restaurant(...)`: a new, empty hall under `r.id`. */
  function Put(t: Table, r: RestaurantData): Table {
    Table(if r.id in t.halls then t.keys else t.keys + [r.id],
          t.halls[r.id := HallView(r.id, r.name, r.location, r.cuisineType, [])])
  }

  function PutAll(t: Table, rs: seq<RestaurantData>): Table {
    if rs == [] then t else Put(PutAll(t, rs[..|rs| - 1]), rs[|rs| - 1])
  }

  /** Appends `item` to its hall; an item of an unknown hall is dropped. */
  function AddItem(t: Table, item: FoodItem): Table {
    if item.restaurantId in t.halls then
      var h := t.halls[item.restaurantId];
      Table(t.keys, t.halls[item.restaurantId := h.(inventory := h.inventory + [item])])
    else t
  }

  function AddAll(t: Table, items: seq<FoodItem>): Table {
    if items == [] then t else AddItem(AddAll(t, items[..|items| - 1]), items[|items| - 1])
  }

  /** `_populate_restaurants(data)`. */
  function Populate(t: Table, data: DiningData): Table {
    AddAll(PutAll(t, data.restaurants), data.foodItems)
  }

  /** The ids of a list of hall records. */
  function Ids(rs: seq<RestaurantData>): set<string> {
    set i | 0 <= i < |rs| :: rs[i].id
  }

  /** The last record with a given id: the one a later duplicate leaves in place. */
  function LastWithId(rs: seq<RestaurantData>, id: string): (r: RestaurantData)
    requires id in Ids(rs)
    ensures r in rs && r.id == id
  {
    var last := rs[|rs| - 1];
    if last.id == id then last
    else
      assert id in Ids(rs[..|rs| - 1]) by {
        var i :| 0 <= i < |rs| && rs[i].id == id;
        assert rs[..|rs| - 1][i] == rs[i];
      }
      LastWithId(rs[..|rs| - 1], id)
  }

  /** The items of a given hall, in input order. */
  function ItemsFor(items: seq<FoodItem>, id: string): seq<FoodItem> {
    if items == [] then []
    else
      var last := items[|items| - 1];
      ItemsFor(items[..|items| - 1], id) + (if last.restaurantId == id then [last] else [])
  }

  /** The ids of `rs` that are not in `keys`, each once, in the order of their
      first occurrence in `rs`. */
  function NewIds(keys: seq<string>, rs: seq<RestaurantData>): seq<string> {
    if rs == [] then []
    else
      var prev := NewIds(keys, rs[..|rs| - 1]);
      var id := rs[|rs| - 1].id;
      if id in keys || id in prev then prev else prev + [id]
  }

  /** The new ids are exactly the ids of `rs` missing from `keys`, without repeats. */
  lemma {:induction false} NewIdsMembership(keys: seq<string>, rs: seq<RestaurantData>)
    ensures Distinct(NewIds(keys, rs))
    ensures forall k :: k in NewIds(keys, rs) <==> k !in keys && k in Ids(rs)
  {
    if rs != [] {
      NewIdsMembership(keys, rs[..|rs| - 1]);
      IdsSnoc(rs);
      var prev := NewIds(keys, rs[..|rs| - 1]);
      var id := rs[|rs| - 1].id;
      if !(id in keys || id in prev) {
        DistinctSnoc(prev, id);
      }
    }
  }

  /** Putting hall records: one hall per distinct id, keyed by that id, new ids
      appended in first-occurrence order; a later duplicate replaces the earlier
      hall in place; a re-put hall starts with an empty inventory; other halls
      are untouched. */
  lemma {:induction false} PutAllSpec(t: Table, rs: seq<RestaurantData>)
    requires WellFormed(t)
    ensures var u := PutAll(t, rs);
      && WellFormed(u)
      && u.keys == t.keys + NewIds(t.keys, rs)
      && (forall k :: k in u.halls <==> k in t.halls || k in Ids(rs))
      && (forall k :: k in Ids(rs) ==>
            var r := LastWithId(rs, k);
            u.halls[k] == HallView(k, r.name, r.location, r.cuisineType, []))
      && (forall k :: k in t.halls && k !in Ids(rs) ==> u.halls[k] == t.halls[k])
  {
    if rs != [] {
      var init := rs[..|rs| - 1];
      var last := rs[|rs| - 1];
      PutAllSpec(t, init);
      IdsSnoc(rs);
      PutSpec(PutAll(t, init), last);
    }
    PutAllKeys(t, rs);
  }

  /** Putting hall records appends the new ids, in first-occurrence order, to
      the old keys. */
  lemma {:induction false} PutAllKeys(t: Table, rs: seq<RestaurantData>)
    requires WellFormed(t)
    ensures WellFormed(PutAll(t, rs))
    ensures PutAll(t, rs).keys == t.keys + NewIds(t.keys, rs)
  {
    if rs != [] {
      var init := rs[..|rs| - 1];
      PutAllKeys(t, init);
      PutSpec(PutAll(t, init), rs[|rs| - 1]);
    }
  }

  /** The ids of a list are those of all but its last record plus the last id. */
  lemma IdsSnoc(rs: seq<RestaurantData>)
    requires rs != []
    ensures Ids(rs) == Ids(rs[..|rs| - 1]) + {rs[|rs| - 1].id}
  {
    var init := rs[..|rs| - 1];
    forall k | k in Ids(rs) ensures k in Ids(init) + {rs[|rs| - 1].id} {
      var i :| 0 <= i < |rs| && rs[i].id == k;
      if i < |rs| - 1 { assert init[i].id == k; }
    }
    forall k | k in Ids(init) ensures k in Ids(rs) {
      var i :| 0 <= i < |init| && init[i].id == k;
      assert rs[i].id == k;
    }
  }

  /** Putting one record keeps the table well formed and its key order, adding
      the id at the end when it is new. */
  lemma PutSpec(t: Table, r: RestaurantData)
    requires WellFormed(t)
    ensures WellFormed(Put(t, r))
    ensures |t.keys| <= |Put(t, r).keys| && Put(t, r).keys[..|t.keys|] == t.keys
  {
    var u := Put(t, r);
    if r.id !in t.halls {
      assert Distinct(u.keys) by {
        forall i, j | 0 <= i < j < |u.keys| ensures u.keys[i] != u.keys[j] {
          if j == |t.keys| { assert t.keys[i] in t.halls; }
        }
      }
    }
  }

  /** Adding food items: keys and hall attributes stay; each hall's inventory
      grows by exactly the items carrying its id, in input order; items of
      unknown halls vanish. */
  lemma {:induction false} AddAllSpec(t: Table, items: seq<FoodItem>)
    ensures var u := AddAll(t, items);
      && u.keys == t.keys
      && u.halls.Keys == t.halls.Keys
      && (forall k :: k in t.halls ==>
            u.halls[k] == t.halls[k].(inventory := t.halls[k].inventory + ItemsFor(items, k)))
  {
    if items != [] {
      var init := items[..|items| - 1];
      AddAllSpec(t, init);
      var u0 := AddAll(t, init);
      forall k | k in t.halls
        ensures AddAll(t, items).halls[k] == t.halls[k].(inventory := t.halls[k].inventory + ItemsFor(items, k))
      {
        assert t.halls[k].inventory + ItemsFor(init, k) + (if items[|items| - 1].restaurantId == k then [items[|items| - 1]] else [])
            == t.halls[k].inventory + ItemsFor(items, k);
      }
    } else {
      forall k | k in t.halls ensures t.halls[k].inventory + ItemsFor(items, k) == t.halls[k].inventory { }
    }
  }

  /** Loading data into an empty table: one hall per distinct id, in
      first-occurrence order, attributes from the last record with that id, and
      the hall's inventory is exactly the input items that name it, in order. */
  lemma PopulateFresh(data: DiningData)
    ensures var u := Populate(EmptyTable, data);
      && WellFormed(u)
      && (forall k :: k in u.halls <==> k in Ids(data.restaurants))
      && (forall k :: k in u.halls ==>
            var r := LastWithId(data.restaurants, k);
            u.halls[k] == HallView(k, r.name, r.location, r.cuisineType, ItemsFor(data.foodItems, k)))
  {
    PutAllSpec(EmptyTable, data.restaurants);
    var p := PutAll(EmptyTable, data.restaurants);
    AddAllSpec(p, data.foodItems);
  }

  // ---------------------------------------------------------------------------
  // Flattening the available items
  // ---------------------------------------------------------------------------

  /** `_is_nearby`: case-insensitive containment in either direction; the radius
      is not used. */
  predicate IsNearby(location1: string, location2: string, radiusKm: int) {
    IsSubstring(Lower(location1), Lower(location2)) || IsSubstring(Lower(location2), Lower(location1))
  }

  /** Proximity is symmetric, reflexive and independent of the radius. */
  lemma NearbyProperties(l1: string, l2: string, r1: int, r2: int)
    ensures IsNearby(l1, l2, r1) == IsNearby(l2, l1, r1)
    ensures IsNearby(l1, l1, r1)
    ensures IsNearby(l1, l2, r1) == IsNearby(l1, l2, r2)
  {
    SubstringReflexive(Lower(l1), []);
  }

  /** Annotates items with their hall's name and location. */
  function Listing(items: seq<FoodItem>, hall: HallView): (r: seq<ListedItem>)
    ensures |r| == |items|
    ensures forall i :: 0 <= i < |items| ==> r[i] == ListedItem(items[i], hall.name, hall.location)
  {
    if items == [] then []
    else Listing(items[..|items| - 1], hall) + [ListedItem(items[|items| - 1], hall.name, hall.location)]
  }

  /** Whether a hall takes part: every hall without a user location, only nearby
      halls with one. */
  predicate Included(userLocation: Option<string>, hall: HallView) {
    userLocation.None? || IsNearby(userLocation.value, hall.location, 5)
  }

  /** The annotated available items of hall `k`, if it takes part. */
  function Part(t: Table, k: string, now: int, userLocation: Option<string>): seq<ListedItem> {
    if k in t.halls && Included(userLocation, t.halls[k]) then
      Listing(Available(t.halls[k].inventory, now), t.halls[k])
    else []
  }

  /** The annotated available items of the halls `ks`, hall by hall in order. */
  function Gather(t: Table, ks: seq<string>, now: int, userLocation: Option<string>): seq<ListedItem> {
    if ks == [] then []
    else Gather(t, ks[..|ks| - 1], now, userLocation) + Part(t, ks[|ks| - 1], now, userLocation)
  }

  /** `get_all_available_items`: every hall's available items, table order. */
  function AllAvailable(t: Table, now: int): seq<ListedItem> {
    Gather(t, t.keys, now, None)
  }

  /** A listed item comes from hall `k`: it is available there and carries the
      hall's name and location. */
  predicate FromHall(t: Table, k: string, now: int, userLocation: Option<string>, x: ListedItem) {
    && k in t.halls
    && Included(userLocation, t.halls[k])
    && x.item in t.halls[k].inventory
    && x.item.expiry > now
    && x.restaurant == t.halls[k].name
    && x.restaurantLocation == t.halls[k].location
  }

  /** An entry is gathered exactly when it is an available item of a taking-part
      hall, annotated with that hall. */
  lemma {:induction false} GatherMembership(t: Table, ks: seq<string>, now: int, userLocation: Option<string>, x: ListedItem)
    ensures x in Gather(t, ks, now, userLocation) <==> exists i :: 0 <= i < |ks| && FromHall(t, ks[i], now, userLocation, x)
  {
    if ks != [] {
      var init := ks[..|ks| - 1];
      var k := ks[|ks| - 1];
      GatherMembership(t, init, now, userLocation, x);
      PartMembership(t, k, now, userLocation, x);
      if exists i :: 0 <= i < |ks| && FromHall(t, ks[i], now, userLocation, x) {
        var i :| 0 <= i < |ks| && FromHall(t, ks[i], now, userLocation, x);
        if i < |ks| - 1 {
          assert init[i] == ks[i];
        }
      }
      if exists i :: 0 <= i < |init| && FromHall(t, init[i], now, userLocation, x) {
        var i :| 0 <= i < |init| && FromHall(t, init[i], now, userLocation, x);
        assert ks[i] == init[i];
      }
    }
  }

  /** An entry is in one hall's part exactly when it comes from that hall. */
  lemma PartMembership(t: Table, k: string, now: int, userLocation: Option<string>, x: ListedItem)
    ensures x in Part(t, k, now, userLocation) <==> FromHall(t, k, now, userLocation, x)
  {
    if k in t.halls {
      AvailableMembership(t.halls[k].inventory, now, x.item);
      if FromHall(t, k, now, userLocation, x) {
        var items := Available(t.halls[k].inventory, now);
        var j :| 0 <= j < |items| && items[j] == x.item;
        assert Part(t, k, now, userLocation)[j] == x;
      }
    }
  }

  // ---------------------------------------------------------------------------
  // The DataManager object
  // ---------------------------------------------------------------------------

  /** The demo data set: three halls, six items expiring in 3 or 8 hours. */
  function DemoData(now: int): DiningData {
    var soon := now + 3 * 3600;
    var later := now + 8 * 3600;
    DiningData(
      [ RestaurantData("R001", "Campus Cafe", "North Campus", "Cafe"),
        RestaurantData("R002", "Main Dining Hall", "Central Campus", "Dining Hall"),
        RestaurantData("R003", "West Campus Market", "West Campus", "Market") ],
      [ FoodItem("R001", "F001", "Coffee & Pastry", "bakery", 150, soon, 3),
        FoodItem("R001", "F002", "Sandwich Combo", "american", 240, later, 2),
        FoodItem("R002", "F003", "Pasta Bowl", "italian", 280, soon, 2),
        FoodItem("R002", "F004", "Salad Bar", "healthy", 200, later, 4),
        FoodItem("R003", "F005", "Sushi Roll", "asian", 320, soon, 1),
        FoodItem("R003", "F006", "Fruit Cup", "healthy", 140, later, 5) ])
  }

  /** The hall table of the application. */
  class DataManager {
    var keys: seq<string>
    var halls: map<string, Restaurant>

    /** Keys are distinct and are exactly the table's ids; each hall is stored
        under its own id, so distinct ids hold distinct hall objects. */
    ghost predicate Valid()
      reads this
    {
      && Distinct(keys)
      && (forall k :: k in halls <==> k in keys)
      && (forall k :: k in halls ==> halls[k].restaurantId == k)
    }

    /** The table as a value. */
    function View(): (t: Table)
      reads this, halls.Values
    {
      Table(keys, map k | k in halls :: halls[k].Snapshot())
    }

    constructor ()
      ensures Valid() && View() == EmptyTable
    {
      keys := [];
      halls := map[];
    }

    /** `get_restaurant`: the hall with that id, or None for an unknown id. */
    function GetRestaurant(restaurantId: string): (r: Option<Restaurant>)
      reads this
      ensures r.None? <==> restaurantId !in halls
      ensures r.Some? ==> r.value == halls[restaurantId]
    {
      if restaurantId in halls then Some(halls[restaurantId]) else None
    }

    /** `_populate_restaurants`: puts one new hall per record, then appends each
        food item to the hall it names. */
    method PopulateRestaurants(data: DiningData)
      requires Valid()
      modifies this, halls.Values
      ensures Valid()
      ensures View() == Populate(old(View()), data)
    {
      ghost var t0 := View();
      ghost var oldHalls := halls.Values;
      var rs := data.restaurants;
      var i := 0;
      while i < |rs|
        invariant 0 <= i <= |rs|
        invariant Valid()
        invariant View() == PutAll(t0, rs[..i])
        invariant forall k :: k in halls ==> halls[k] in oldHalls || fresh(halls[k])
      {
        PutHall(rs[i]);
        assert rs[..i + 1][..i] == rs[..i];
        i := i + 1;
      }
      assert rs[..i] == rs;
      ghost var t1 := View();
      var items := data.foodItems;
      var j := 0;
      while j < |items|
        invariant 0 <= j <= |items|
        invariant Valid()
        invariant View() == AddAll(t1, items[..j])
        invariant forall k :: k in halls ==> halls[k] in oldHalls || fresh(halls[k])
      {
        AddToHall(items[j]);
        assert items[..j + 1][..j] == items[..j];
        j := j + 1;
      }
      assert items[..j] == items;
    }

    /** `self.restaurants[id] = Restaurant(...)`. */
    method PutHall(rd: RestaurantData)
      requires Valid()
      modifies this
      ensures Valid()
      ensures View() == Put(old(View()), rd)
      ensures forall k :: k in halls ==> halls[k] in old(halls.Values) || fresh(halls[k])
    {
      var r := new Restaurant(rd.id, rd.name, rd.location, rd.cuisineType);
      ghost var before := View();
      assert before == old(View());
      if rd.id !in halls {
        DistinctSnoc(keys, rd.id);
        keys := keys + [rd.id];
      }
      halls := halls[rd.id := r];
      assert View().halls == before.halls[rd.id := r.Snapshot()];
    }

    /** `self.restaurants[item['restaurant_id']].add_surplus_food(item)` when the
        hall is known; nothing otherwise. */
    method AddToHall(item: FoodItem)
      requires Valid()
      modifies halls.Values
      ensures Valid()
      ensures View() == AddItem(old(View()), item)
    {
      ghost var before := View();
      if item.restaurantId in halls {
        var h := halls[item.restaurantId];
        h.AddSurplusFood(item);
        assert forall k :: k in halls && k != item.restaurantId ==> halls[k] != h;
        assert View().halls == before.halls[item.restaurantId := h.Snapshot()];
      }
    }

    /** `refresh_data`: with fresh data, clears the table, repopulates it and
        reports True; without, leaves the table as it was and reports False. */
    method RefreshData(fetched: Option<DiningData>) returns (ok: bool)
      requires Valid()
      modifies this, halls.Values
      ensures Valid()
      ensures ok == fetched.Some?
      ensures ok ==> View() == Populate(EmptyTable, fetched.value)
      ensures !ok ==> View() == old(View())
    {
      if fetched.Some? {
        keys := [];
        halls := map[];
        PopulateRestaurants(fetched.value);
        return true;
      }
      return false;
    }

    /** `load_dining_data`: saved data first, then freshly fetched data, then the
        demo data; only the demo case reports False. `saved` is None when there is
        no saved file or it could not be read. */
    method LoadDiningData(saved: Option<DiningData>, fetched: Option<DiningData>, now: int) returns (ok: bool)
      requires Valid()
      modifies this, halls.Values
      ensures Valid()
      ensures ok == (saved.Some? || fetched.Some?)
      ensures saved.Some? ==> View() == Populate(old(View()), saved.value)
      ensures saved.None? && fetched.Some? ==> View() == Populate(old(View()), fetched.value)
      ensures !ok ==> View() == Populate(old(View()), DemoData(now))
    {
      if saved.Some? {
        PopulateRestaurants(saved.value);
        return true;
      }
      if fetched.Some? {
        PopulateRestaurants(fetched.value);
        return true;
      }
      LoadDemoData(now);
      return false;
    }

    /** `_load_demo_data`: puts the demo halls and appends the demo items. */
    method LoadDemoData(now: int)
      requires Valid()
      modifies this, halls.Values
      ensures Valid()
      ensures View() == Populate(old(View()), DemoData(now))
    {
      PopulateRestaurants(DemoData(now));
    }

    /** `get_all_available_items`: the available items of every hall in table
        order, each annotated with its hall; the user location is not used. */
    method GetAllAvailableItems(userLocation: Option<string>, now: int) returns (r: seq<ListedItem>)
      requires Valid()
      ensures r == AllAvailable(View(), now)
    {
      r := CollectAvailable(None, now);
    }

    /** The nested loop shared by the item scans: for each hall in table order
        that takes part, append its available items annotated with the hall. */
    method CollectAvailable(userLocation: Option<string>, now: int) returns (r: seq<ListedItem>)
      ensures r == Gather(View(), keys, now, userLocation)
    {
      ghost var t := View();
      var ks := keys;
      r := [];
      var i := 0;
      while i < |ks|
        invariant 0 <= i <= |ks|
        invariant r == Gather(t, ks[..i], now, userLocation)
      {
        var k := ks[i];
        var part := HallPart(k, userLocation, now);
        assert View() == t;
        GatherStep(t, ks, i, now, userLocation, part);
        r := r + part;
        i := i + 1;
      }
      assert ks[..i] == ks;
    }

    /** One hall's contribution to a scan. */
    method HallPart(k: string, userLocation: Option<string>, now: int) returns (part: seq<ListedItem>)
      ensures part == Part(View(), k, now, userLocation)
    {
      part := [];
      if k in halls {
        var hall := halls[k];
        assert View().halls[k] == hall.Snapshot();
        if Included(userLocation, hall.Snapshot()) {
          part := ListAvailable(hall, now);
        }
      }
    }
  }

  lemma GatherStep(t: Table, ks: seq<string>, i: nat, now: int, userLocation: Option<string>,
                   part: seq<ListedItem>)
    requires i < |ks| && part == Part(t, ks[i], now, userLocation)
    ensures Gather(t, ks[..i + 1], now, userLocation) == Gather(t, ks[..i], now, userLocation) + part
  {
    assert ks[..i + 1][..i] == ks[..i];
  }

  /** The inner loop: the available items of one hall, annotated with it. */
  method ListAvailable(hall: Restaurant, now: int) returns (r: seq<ListedItem>)
    ensures r == Listing(Available(hall.surplusInventory, now), hall.Snapshot())
  {
    var avail := hall.GetAvailableItems(now);
    r := [];
    var j := 0;
    while j < |avail|
      invariant 0 <= j <= |avail|
      invariant r == Listing(avail[..j], hall.Snapshot())
    {
      r := r + [ListedItem(avail[j], hall.name, hall.location)];
      assert avail[..j + 1][..j] == avail[..j];
      j := j + 1;
    }
    assert avail[..j] == avail;
  }
}
