/** The entities of `models.py`: food items, users that learn preferences from
    ratings, dining halls that own surplus inventory, and orders. */
module Models {
  import opened Wrappers

  // ---------------------------------------------------------------------------
  // Food items and availability
  // ---------------------------------------------------------------------------

  /** One surplus food record. Prices are integer cents; `expiry` is an absolute
      time in seconds, compared with an explicit `now`. */
  datatype FoodItem = FoodItem(
    restaurantId: string,
    itemId: string,
    name: string,
    foodType: string,
    originalPrice: int,
    expiry: int,
    quantity: int)

  /** An available item as the services list it: the record annotated with its
      hall's display name and location. */
  datatype ListedItem = ListedItem(item: FoodItem, restaurant: string, restaurantLocation: string)

  /** The non-expired items of an inventory, in inventory order. Quantity is not
      consulted. */
  function Available(inv: seq<FoodItem>, now: int): (r: seq<FoodItem>)
    ensures |r| <= |inv|
    ensures forall x :: x in r ==> x in inv && x.expiry > now
  {
    if inv == [] then []
    else
      var last := inv[|inv| - 1];
      Available(inv[..|inv| - 1], now) + (if last.expiry > now then [last] else [])
  }

  /** An item is available exactly when it is in the inventory and has not
      expired, whatever its quantity (zero included). */
  lemma {:induction false} AvailableMembership(inv: seq<FoodItem>, now: int, x: FoodItem)
    ensures x in Available(inv, now) <==> x in inv && x.expiry > now
  {
    if inv != [] {
      var init := inv[..|inv| - 1];
      AvailableMembership(init, now, x);
      assert inv == init + [inv[|inv| - 1]];
    }
  }

  /** Filtering keeps inventory order: the filter of a concatenation is the
      concatenation of the filters. */
  lemma {:induction false} AvailableAppend(a: seq<FoodItem>, b: seq<FoodItem>, now: int)
    ensures Available(a + b, now) == Available(a, now) + Available(b, now)
  {
    if b != [] {
      var init := b[..|b| - 1];
      AvailableAppend(a, init, now);
      assert (a + b)[..|a + b| - 1] == a + init;
    } else {
      assert a + b == a;
    }
  }

  // ---------------------------------------------------------------------------
  // Users
  // ---------------------------------------------------------------------------

  /** One entry of a user's interaction history (the timestamp is left out). */
  datatype Interaction = Interaction(foodType: string, rating: int)

  /** The sum of the ratings recorded for `foodType` in `h`. */
  function RatingSum(h: seq<Interaction>, foodType: string): int {
    if h == [] then 0
    else
      var last := h[|h| - 1];
      RatingSum(h[..|h| - 1], foodType) + (if last.foodType == foodType then last.rating else 0)
  }

  /** The food types that have been rated at least once. */
  function RatedTypes(h: seq<Interaction>): set<string> {
    set i | 0 <= i < |h| :: h[i].foodType
  }

  /** A food type that was never rated has rating sum 0. */
  lemma {:induction false} UnratedSumZero(h: seq<Interaction>, foodType: string)
    requires foodType !in RatedTypes(h)
    ensures RatingSum(h, foodType) == 0
  {
    if h != [] {
      var init := h[..|h| - 1];
      assert RatedTypes(init) <= RatedTypes(h) by {
        forall t | t in RatedTypes(init) ensures t in RatedTypes(h) {
          var i :| 0 <= i < |init| && init[i].foodType == t;
          assert h[i].foodType == t;
        }
      }
      assert h[|h| - 1].foodType in RatedTypes(h);
      UnratedSumZero(init, foodType);
    }
  }

  /** A student profile (`User`): its score map is learned from ratings. */
  class User {
    const userId: string
    const name: string
    const location: string
    const dietaryPreferences: seq<string>
    var interactionHistory: seq<Interaction>
    var preferencesScore: map<string, int>

    /** The score map holds exactly the rated food types, each with the sum of
        its ratings. */
    ghost predicate Valid()
      reads this
    {
      && preferencesScore.Keys == RatedTypes(interactionHistory)
      && forall t :: t in preferencesScore ==> preferencesScore[t] == RatingSum(interactionHistory, t)
    }

    /** A fresh profile: empty history and empty score map. A missing preference
        list is the empty list. */
    constructor (userId: string, name: string, location: string, dietaryPreferences: seq<string>)
      ensures Valid()
      ensures this.userId == userId && this.name == name && this.location == location
      ensures this.dietaryPreferences == dietaryPreferences
      ensures interactionHistory == [] && preferencesScore == map[]
    {
      this.userId := userId;
      this.name := name;
      this.location := location;
      this.dietaryPreferences := dietaryPreferences;
      interactionHistory := [];
      preferencesScore := map[];
    }

    /** The learned score for a food type: 0 when never rated, otherwise the sum
        of its ratings. */
    function GetPreferenceScore(foodType: string): (r: int)
      reads this
      requires Valid()
      ensures r == RatingSum(interactionHistory, foodType)
      ensures foodType !in RatedTypes(interactionHistory) ==> r == 0
    {
      if foodType in preferencesScore then preferencesScore[foodType]
      else
        UnratedSumZero(interactionHistory, foodType);
        0
    }

    /** Records one rating: one history entry is appended and the score of that
        food type (0 if absent) grows by `rating`; every other score is kept. */
    method AddInteraction(foodType: string, rating: int)
      requires Valid()
      modifies this
      ensures Valid()
      ensures interactionHistory == old(interactionHistory) + [Interaction(foodType, rating)]
      ensures preferencesScore == old(preferencesScore)[foodType := old(GetPreferenceScore(foodType)) + rating]
      ensures forall t :: t != foodType ==> GetPreferenceScore(t) == old(GetPreferenceScore(t))
    {
      var h := interactionHistory;
      var entry := Interaction(foodType, rating);
      interactionHistory := interactionHistory + [entry];
      var current := if foodType in preferencesScore then preferencesScore[foodType] else 0;
      preferencesScore := preferencesScore[foodType := current + rating];
      assert interactionHistory[..|h|] == h;
      assert RatedTypes(interactionHistory) == RatedTypes(h) + {foodType} by {
        forall t | t in RatedTypes(interactionHistory) ensures t in RatedTypes(h) + {foodType} {
          var i :| 0 <= i < |interactionHistory| && interactionHistory[i].foodType == t;
          if i < |h| { assert h[i].foodType == t; }
        }
        forall t | t in RatedTypes(h) ensures t in RatedTypes(interactionHistory) {
          var i :| 0 <= i < |h| && h[i].foodType == t;
          assert interactionHistory[i].foodType == t;
        }
        assert interactionHistory[|h|].foodType == foodType;
      }
      if foodType !in old(preferencesScore) {
        UnratedSumZero(h, foodType);
      }
    }
  }

  // ---------------------------------------------------------------------------
  // Dining halls
  // ---------------------------------------------------------------------------

  /** The value of a dining hall at one moment. */
  datatype HallView = HallView(
    restaurantId: string,
    name: string,
    location: string,
    cuisineType: string,
    inventory: seq<FoodItem>)

  /** `Restaurant.to_dict()`. */
  datatype RestaurantSummary = RestaurantSummary(
    restaurantId: string,
    name: string,
    location: string,
    cuisineType: string,
    inventoryCount: nat,
    availableCount: nat)

  /** A dining hall (`Restaurant`) owning an ordered surplus inventory. */
  class Restaurant {
    const restaurantId: string
    const name: string
    const location: string
    const cuisineType: string
    var surplusInventory: seq<FoodItem>

    constructor (restaurantId: string, name: string, location: string, cuisineType: string)
      ensures this.restaurantId == restaurantId && this.name == name
      ensures this.location == location && this.cuisineType == cuisineType
      ensures surplusInventory == []
    {
      this.restaurantId := restaurantId;
      this.name := name;
      this.location := location;
      this.cuisineType := cuisineType;
      surplusInventory := [];
    }

    /** Appends at the end; existing items are kept as they were. */
    method AddSurplusFood(item: FoodItem)
      modifies this
      ensures surplusInventory == old(surplusInventory) + [item]
    {
      surplusInventory := surplusInventory + [item];
    }

    /** The non-expired items, in insertion order. */
    function GetAvailableItems(now: int): seq<FoodItem>
      reads this
    {
      Available(surplusInventory, now)
    }

    /** The first item with the given id, or None when no item has it. */
    method GetItemById(itemId: string) returns (r: Option<FoodItem>)
      ensures r.None? <==> forall i :: 0 <= i < |surplusInventory| ==> surplusInventory[i].itemId != itemId
      ensures r.Some? ==> exists i :: 0 <= i < |surplusInventory| && surplusInventory[i] == r.value
                            && r.value.itemId == itemId
                            && forall j :: 0 <= j < i ==> surplusInventory[j].itemId != itemId
    {
      var i := 0;
      while i < |surplusInventory|
        invariant 0 <= i <= |surplusInventory|
        invariant forall j :: 0 <= j < i ==> surplusInventory[j].itemId != itemId
      {
        if surplusInventory[i].itemId == itemId {
          return Some(surplusInventory[i]);
        }
        i := i + 1;
      }
      return None;
    }

    /** The hall as a value. */
    function Snapshot(): (h: HallView)
      reads this
    {
      HallView(restaurantId, name, location, cuisineType, surplusInventory)
    }

    /** `to_dict()`: the hall's attributes, the inventory size and the number of
        items not yet expired, which never exceeds the inventory size. */
    function ToDict(now: int): (d: RestaurantSummary)
      reads this
      ensures d.restaurantId == restaurantId && d.name == name
      ensures d.location == location && d.cuisineType == cuisineType
      ensures d.inventoryCount == |surplusInventory|
      ensures d.availableCount == |GetAvailableItems(now)|
      ensures d.availableCount <= d.inventoryCount
    {
      RestaurantSummary(restaurantId, name, location, cuisineType,
        |surplusInventory|, |GetAvailableItems(now)|)
    }
  }

  // ---------------------------------------------------------------------------
  // Orders
  // ---------------------------------------------------------------------------

  datatype OrderType = SurpriseBag | CustomBag

  /** One line of an order: a snapshot of the listed item and its discount price
      in tenths of a cent. */
  datatype OrderLine = OrderLine(listed: ListedItem, discountPrice: int)

  /** A placed order. `impactMessage` is present only where the service adds it. */
  datatype Order = Order(
    orderId: string,
    userId: string,
    orderType: OrderType,
    items: seq<OrderLine>,
    cost: int,
    status: string,
    impactMessage: Option<string>)

  /** A new order is `confirmed` and carries exactly what it was built from. */
  function NewOrder(orderId: string, userId: string, orderType: OrderType,
                    items: seq<OrderLine>, cost: int): (o: Order)
    ensures o.status == "confirmed" && o.impactMessage.None?
    ensures o.orderId == orderId && o.userId == userId && o.orderType == orderType
    ensures o.items == items && o.cost == cost
  {
    Order(orderId, userId, orderType, items, cost, "confirmed", None)
  }
}
