/** The business constants of `Config` that the decision logic reads. */
module Config {
  import opened Text

  /** Customers pay DISCOUNT_NUM / DISCOUNT_DEN of the original price (0.3, "70% off"). */
  const DISCOUNT_NUM: nat := 3
  const DISCOUNT_DEN: nat := 10

  const SURPRISE_BAG_MIN_ITEMS: nat := 3
  const SURPRISE_BAG_MAX_ITEMS: nat := 5
  const MAX_SUGGESTIONS: nat := 12
  const NEARBY_RADIUS_KM: int := 5

  const PREFERENCE_SCORE_WEIGHT: int := 2
  const DIETARY_MATCH_SCORE: int := 10
  const URGENT_EXPIRY_HOURS: int := 4
  const URGENT_EXPIRY_SCORE: int := 15
  const NORMAL_EXPIRY_HOURS: int := 8
  const NORMAL_EXPIRY_SCORE: int := 10

  /** Time is counted in whole seconds. */
  const SECONDS_PER_HOUR: int := 3600

  /** A mood → food type → bonus table. */
  type MoodTable = map<string, map<string, int>>

  /** `MOOD_FOOD_MAP`, used by the modular services. */
  const MOOD_FOOD_MAP: MoodTable := map[
    "happy" := map["italian" := 10, "american" := 8, "asian" := 7],
    "stressed" := map["healthy" := 10, "italian" := 8, "american" := 7],
    "healthy" := map["healthy" := 10, "vegetarian" := 9],
    "adventurous" := map["asian" := 10, "italian" := 7],
    "tired" := map["american" := 10, "italian" := 8]
  ]

  /** Every mood key of a table is lower-case and every bonus lies in lo..hi. */
  ghost predicate WellFormedMoodTable(t: MoodTable, lo: int, hi: int) {
    && (forall m :: m in t ==> IsLower(m))
    && (forall m, f :: m in t && f in t[m] ==> lo <= t[m][f] <= hi)
  }

  /** The constants are mutually consistent: the urgency tiers are ordered and
      disjoint, the urgent bonus beats the normal one, the bag-size range is not
      empty and the discount is a proper fraction. */
  lemma ConstantsConsistent()
    ensures 0 < URGENT_EXPIRY_HOURS < NORMAL_EXPIRY_HOURS
    ensures URGENT_EXPIRY_SCORE > NORMAL_EXPIRY_SCORE > 0
    ensures 1 <= SURPRISE_BAG_MIN_ITEMS <= SURPRISE_BAG_MAX_ITEMS
    ensures 0 < DISCOUNT_NUM < DISCOUNT_DEN
  {
  }

  /** `MOOD_FOOD_MAP` has lower-case mood keys and bonuses in 7..10. */
  lemma MoodFoodMapWellFormed()
    ensures WellFormedMoodTable(MOOD_FOOD_MAP, 7, 10)
  {
    MoodKeysLower();
    MoodBonusesInRange();
  }

  lemma MoodKeysLower()
    ensures forall m :: m in MOOD_FOOD_MAP ==> IsLower(m)
  {
  }

  lemma MoodBonusesInRange()
    ensures forall m, f :: m in MOOD_FOOD_MAP && f in MOOD_FOOD_MAP[m] ==> 7 <= MOOD_FOOD_MAP[m][f] <= 10
  {
  }
}
