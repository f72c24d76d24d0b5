/** The per-item recommendation score and the discount price
    (`_calculate_item_score`, `_get_mood_score` / `_mood_score`, and the
    `round(original_price * DISCOUNT_RATE, 2)` expression). */
module Scoring {
  import opened Wrappers
  import opened Text
  import opened Config
  import opened Models

  /** Money below the cent: discount prices are counted in tenths of a cent, in
      which 30% of an integer number of cents is always exact. */
  const TENTHS_PER_CENT: nat := 10

  /** The price a customer pays, in tenths of a cent. */
  function DiscountPrice(originalPrice: int): (d: int)
    ensures d * DISCOUNT_DEN == originalPrice * DISCOUNT_NUM * TENTHS_PER_CENT
    ensures originalPrice >= 0 ==> 0 <= d <= originalPrice * TENTHS_PER_CENT
  {
    originalPrice * DISCOUNT_NUM * TENTHS_PER_CENT / DISCOUNT_DEN
  }

  /** The worked example of a 300-cent item: the customer pays 90 cents. */
  lemma DiscountExample()
    ensures DiscountPrice(300) == 90 * TENTHS_PER_CENT
  {
  }

  /** Urgency tier from the time left before expiry: under 4 hours scores 15,
      under 8 hours 10, otherwise 0. */
  function UrgencyBonus(expiry: int, now: int): (r: int)
    ensures r == URGENT_EXPIRY_SCORE <==> expiry - now < URGENT_EXPIRY_HOURS * SECONDS_PER_HOUR
    ensures r == NORMAL_EXPIRY_SCORE <==>
      URGENT_EXPIRY_HOURS * SECONDS_PER_HOUR <= expiry - now < NORMAL_EXPIRY_HOURS * SECONDS_PER_HOUR
    ensures r == 0 <==> expiry - now >= NORMAL_EXPIRY_HOURS * SECONDS_PER_HOUR
  {
    var left := expiry - now;
    if left < URGENT_EXPIRY_HOURS * SECONDS_PER_HOUR then URGENT_EXPIRY_SCORE
    else if left < NORMAL_EXPIRY_HOURS * SECONDS_PER_HOUR then NORMAL_EXPIRY_SCORE
    else 0
  }

  /** Sooner expiry never lowers the urgency bonus. */
  lemma UrgencyMonotone(e1: int, e2: int, now: int)
    requires e1 <= e2
    ensures UrgencyBonus(e1, now) >= UrgencyBonus(e2, now)
  {
  }

  /** The bonus of a mood for a food type: the mood is looked up lower-cased;
      an unknown mood or food type scores 0. */
  function GetMoodScore(table: MoodTable, foodType: string, mood: string): (r: int)
    ensures Lower(mood) !in table ==> r == 0
    ensures Lower(mood) in table && foodType in table[Lower(mood)] ==> r == table[Lower(mood)][foodType]
    ensures Lower(mood) in table && foodType !in table[Lower(mood)] ==> r == 0
  {
    var key := Lower(mood);
    if key in table && foodType in table[key] then table[key][foodType] else 0
  }

  /** Moods that differ only in letter case score alike; with a well-formed
      table the bonus is 0 or lies within the table's range. */
  lemma {:induction false} MoodScoreProperties(table: MoodTable, foodType: string, m1: string, m2: string, lo: int, hi: int)
    requires WellFormedMoodTable(table, lo, hi)
    ensures Lower(m1) == Lower(m2) ==> GetMoodScore(table, foodType, m1) == GetMoodScore(table, foodType, m2)
    ensures GetMoodScore(table, foodType, m1) == 0 || lo <= GetMoodScore(table, foodType, m1) <= hi
  {
  }

  /** A mood contributes only when one is given (a missing or empty mood is falsy). */
  function MoodTerm(table: MoodTable, foodType: string, mood: Option<string>): int {
    if mood.Some? && mood.value != "" then GetMoodScore(table, foodType, mood.value) else 0
  }

  /** The learned-preference term: twice the score, 0 for an unrated type. */
  function PreferenceTerm(prefs: map<string, int>, foodType: string): int {
    if foodType in prefs then prefs[foodType] * PREFERENCE_SCORE_WEIGHT else 0
  }

  /** The dietary term: exact membership of the food type in the preference list. */
  function DietaryTerm(dietary: seq<string>, foodType: string): int {
    if foodType in dietary then DIETARY_MATCH_SCORE else 0
  }

  /** The recommendation score of one listed item for one user profile. */
  function ItemScore(listed: ListedItem, prefs: map<string, int>, dietary: seq<string>,
                     mood: Option<string>, now: int, table: MoodTable): int
  {
    var ft := listed.item.foodType;
    PreferenceTerm(prefs, ft) + DietaryTerm(dietary, ft) + MoodTerm(table, ft, mood)
      + UrgencyBonus(listed.item.expiry, now)
  }

  /** A user without ratings and without a mood is scored by dietary match and
      urgency alone. */
  lemma ScoreWithoutHistory(listed: ListedItem, dietary: seq<string>, now: int, table: MoodTable)
    ensures ItemScore(listed, map[], dietary, None, now, table)
         == (if listed.item.foodType in dietary then DIETARY_MATCH_SCORE else 0)
            + UrgencyBonus(listed.item.expiry, now)
  {
  }

  /** Learning and scoring agree: rating food type `t` with `rating` changes the
      score of items of type `t` by twice the rating and leaves every other item's
      score unchanged. */
  lemma ScoreAfterRating(listed: ListedItem, prefs: map<string, int>, t: string, rating: int,
                         dietary: seq<string>, mood: Option<string>, now: int, table: MoodTable)
    ensures ItemScore(listed, prefs[t := (if t in prefs then prefs[t] else 0) + rating], dietary, mood, now, table)
         == ItemScore(listed, prefs, dietary, mood, now, table)
            + (if listed.item.foodType == t then PREFERENCE_SCORE_WEIGHT * rating else 0)
  {
  }

  /** With the configured mood table, a profile without ratings scores every item
      between 0 and 35. */
  lemma ScoreBoundsWithoutHistory(listed: ListedItem, dietary: seq<string>, mood: Option<string>, now: int)
    ensures 0 <= ItemScore(listed, map[], dietary, mood, now, MOOD_FOOD_MAP)
              <= DIETARY_MATCH_SCORE + 10 + URGENT_EXPIRY_SCORE
  {
    MoodFoodMapWellFormed();
    if mood.Some? && mood.value != "" {
      MoodScoreProperties(MOOD_FOOD_MAP, listed.item.foodType, mood.value, mood.value, 7, 10);
    }
  }
}
