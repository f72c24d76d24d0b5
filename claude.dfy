/** `ClaudeAIService`: the items sent to the ranking model, the clean-up and
    mapping of its reply onto the available items, and the rule-based fallback
    ranking. The HTTP call and the JSON decoder are parameters: `callApi` is the
    reply (or failure) the remote model gives for the summarised items, and
    `decode` is what `json.loads` makes of a text. */
module AiService {
  import opened Wrappers
  import opened Text
  import opened Config
  import opened Models
  import opened Scoring
  import opened Ranking

  /** At most this many items go into the prompt. */
  const PROMPT_ITEM_LIMIT: nat := 20
  /** The prompt marks an item urgent below four hours to expiry. */
  const URGENT_SECONDS: int := 4 * SECONDS_PER_HOUR

  /** The fallback ranking scores only the first 12 items and keeps 8. */
  const FALLBACK_WINDOW: nat := 12
  const FALLBACK_LIMIT: nat := 8
  const FALLBACK_BASE_SCORE: int := 20
  const FALLBACK_REASON: string := "Recommended based on your preferences"

  const CODE_FENCE: string := "```"

  // ---------------------------------------------------------------------------
  // _prepare_items_for_claude
  // ---------------------------------------------------------------------------

  /** One item as the prompt describes it; the time left is kept in seconds. */
  datatype ItemSummary = ItemSummary(
    id: string,
    name: string,
    foodType: string,
    restaurant: string,
    location: string,
    priceCents: int,
    secondsLeft: int,
    urgent: bool)

  function Summarize(x: ListedItem, now: int): ItemSummary {
    ItemSummary(x.item.itemId, x.item.name, x.item.foodType, x.restaurant, x.restaurantLocation,
      x.item.originalPrice, x.item.expiry - now, x.item.expiry - now < URGENT_SECONDS)
  }

  /** The summaries of `items`, one per item in order; an item is urgent exactly
      when it expires in under four hours. */
  function Summaries(items: seq<ListedItem>, now: int): (r: seq<ItemSummary>)
    ensures |r| == |items|
    ensures forall i :: 0 <= i < |items| ==>
      && r[i].id == items[i].item.itemId
      && r[i].priceCents == items[i].item.originalPrice
      && r[i].secondsLeft == items[i].item.expiry - now
      && (r[i].urgent <==> items[i].item.expiry - now < URGENT_SECONDS)
  {
    seq(|items|, i requires 0 <= i < |items| => Summarize(items[i], now))
  }

  /** Summarises the first 20 items, in order. */
  method PrepareItemsForClaude(items: seq<ListedItem>, now: int) returns (r: seq<ItemSummary>)
    ensures r == Summaries(Take(items, PROMPT_ITEM_LIMIT), now)
  {
    var n := Min(PROMPT_ITEM_LIMIT, |items|);
    r := [];
    var i := 0;
    while i < n
      invariant 0 <= i <= n
      invariant |r| == i
      invariant forall j :: 0 <= j < i ==> r[j] == Summarize(items[j], now)
    {
      r := r + [Summarize(items[i], now)];
      i := i + 1;
    }
    assert items[..n] == Take(items, PROMPT_ITEM_LIMIT);
  }

  // ---------------------------------------------------------------------------
  // Cleaning the reply
  // ---------------------------------------------------------------------------

  /** The reply stripped of surrounding whitespace; when it then starts with a
      code fence and has more than two lines, its first and last lines are
      dropped. */
  function CleanResponse(response: string): (r: string)
    ensures !StartsWith(Strip(response), CODE_FENCE) ==> r == Strip(response)
  {
    var cleaned := Strip(response);
    if StartsWith(cleaned, CODE_FENCE) then
      var lines := SplitLines(cleaned);
      if |lines| > 2 then JoinLines(lines[1..|lines| - 1]) else cleaned
    else cleaned
  }

  /** A body wrapped in a fenced block (with an optional language tag) comes
      back exactly. */
  lemma FenceRemoved(tag: string, body: string)
    requires '\n' !in tag
    ensures CleanResponse(CODE_FENCE + tag + "\n" + body + "\n" + CODE_FENCE) == body
  {
    var head := CODE_FENCE + tag;
    var s := CODE_FENCE + tag + "\n" + body + "\n" + CODE_FENCE;
    FencedShape(tag, body);
    StripUnchanged(s);
    SplitFenced(head, body);
    var lines := SplitLines(s);
    assert lines[1..|lines| - 1] == SplitLines(body);
    JoinSplit(body);
  }

  /** A fenced block starts with the fence and has no whitespace at either end. */
  lemma FencedShape(tag: string, body: string)
    ensures var s := CODE_FENCE + tag + "\n" + body + "\n" + CODE_FENCE;
      && s != [] && !IsSpace(s[0]) && !IsSpace(s[|s| - 1]) && StartsWith(s, CODE_FENCE)
  {
    var s := CODE_FENCE + tag + "\n" + body + "\n" + CODE_FENCE;
    assert s[..|CODE_FENCE|] == CODE_FENCE;
    assert s[0] == '`';
    assert s[|s| - 1] == CODE_FENCE[|CODE_FENCE| - 1];
  }

  /** The lines of a fenced block: the opening line, the body's lines, the
      closing fence. */
  lemma SplitFenced(head: string, body: string)
    requires '\n' !in head
    ensures SplitLines(head + "\n" + body + "\n" + CODE_FENCE) == [head] + SplitLines(body) + [CODE_FENCE]
  {
    assert head + "\n" + body + "\n" + CODE_FENCE == head + "\n" + (body + "\n" + CODE_FENCE);
    SplitAround(head, body + "\n" + CODE_FENCE);
    SplitAround(body, CODE_FENCE);
    SplitNoNewline(head);
    SplitNoNewline(CODE_FENCE);
  }

  // ---------------------------------------------------------------------------
  // _parse_claude_response
  // ---------------------------------------------------------------------------

  /** One element of a decoded reply array: an object with optional `item_id`,
      `score` and `reason`, or anything else. */
  datatype Rec = RecObject(itemId: Option<string>, score: Option<int>, reason: Option<string>) | RecOther

  /** What `json.loads` returns: a decode error, an array, or another value,
      recording whether iterating that value yields nothing (an empty object or
      string) or fails / yields non-objects. */
  datatype Json = DecodeError | JsonArray(recs: seq<Rec>) | JsonOther(emptyIterable: bool)

  /** A list of suggestions, or an exception other than a decode error. */
  datatype ParseOutcome = Parsed(suggestions: seq<Suggestion>) | Raised

  /** `{item['item_id']: item for item in items}`: the last item with an id wins. */
  function IndexById(items: seq<ListedItem>): (m: map<string, ListedItem>)
    ensures forall id :: id in m ==> m[id] in items && m[id].item.itemId == id
  {
    if items == [] then map[]
    else
      var last := items[|items| - 1];
      IndexById(items[..|items| - 1])[last.item.itemId := last]
  }

  /** An id is indexed exactly when some item carries it. */
  lemma {:induction false} IndexByIdDomain(items: seq<ListedItem>, id: string)
    ensures id in IndexById(items) <==> exists i | 0 <= i < |items| :: items[i].item.itemId == id
  {
    if items != [] {
      var n := |items|;
      var init := items[..n - 1];
      IndexByIdDomain(init, id);
      if id in IndexById(items) && items[n - 1].item.itemId != id {
        var i :| 0 <= i < n - 1 && init[i].item.itemId == id;
        assert items[i] == init[i];
      }
      if exists i | 0 <= i < n :: items[i].item.itemId == id {
        var i :| 0 <= i < n && items[i].item.itemId == id;
        if i < n - 1 {
          assert init[i] == items[i];
        }
      }
    }
  }

  /** An id maps to the last item that carries it. */
  lemma {:induction false} IndexByIdLastWins(items: seq<ListedItem>, i: nat)
    requires i < |items|
    requires forall j | i < j < |items| :: items[j].item.itemId != items[i].item.itemId
    ensures items[i].item.itemId in IndexById(items)
    ensures IndexById(items)[items[i].item.itemId] == items[i]
  {
    var n := |items|;
    if i < n - 1 {
      var init := items[..n - 1];
      assert init[i] == items[i];
      forall j | i < j < |init| ensures init[j].item.itemId != init[i].item.itemId {
        assert init[j] == items[j];
      }
      IndexByIdLastWins(init, i);
    }
  }

  /** `rec['item_id']` (raises when missing); an unknown id yields nothing; a
      known one reads `rec['score']` (raises when missing) and `rec.get('reason', '')`. */
  function Step(rec: Rec, index: map<string, ListedItem>): ParseOutcome {
    match rec
    case RecOther => Raised
    case RecObject(id, score, reason) =>
      if id.None? then Raised
      else if id.value !in index then Parsed([])
      else if score.None? then Raised
      else
        var x := index[id.value];
        Parsed([Suggestion(x, score.value, DiscountPrice(x.item.originalPrice), Some(reason.GetOr("")))])
  }

  /** Running one step after another: the first exception wins. */
  function Then(a: ParseOutcome, b: ParseOutcome): ParseOutcome {
    if a.Raised? || b.Raised? then Raised else Parsed(a.suggestions + b.suggestions)
  }

  /** The loop over the decoded array, element by element. */
  function MapRecs(recs: seq<Rec>, index: map<string, ListedItem>): ParseOutcome {
    if recs == [] then Parsed([])
    else Then(MapRecs(recs[..|recs| - 1], index), Step(recs[|recs| - 1], index))
  }

  /** Mapping a concatenation runs the two halves one after the other: the
      suggestions come out in reply order. */
  lemma {:induction false} MapRecsAppend(a: seq<Rec>, b: seq<Rec>, index: map<string, ListedItem>)
    ensures MapRecs(a + b, index) == Then(MapRecs(a, index), MapRecs(b, index))
  {
    if b == [] {
      assert a + b == a;
      if MapRecs(a, index).Parsed? {
        assert MapRecs(a, index).suggestions + [] == MapRecs(a, index).suggestions;
      }
    } else {
      var init := b[..|b| - 1];
      assert (a + b)[..|a + b| - 1] == a + init;
      assert (a + b)[|a + b| - 1] == b[|b| - 1];
      MapRecsAppend(a, init, index);
      var x := MapRecs(a, index);
      var y := MapRecs(init, index);
      var z := Step(b[|b| - 1], index);
      if x.Parsed? && y.Parsed? && z.Parsed? {
        assert (x.suggestions + y.suggestions) + z.suggestions == x.suggestions + (y.suggestions + z.suggestions);
      }
    }
  }

  /** A recommendation for an id that is not available is dropped on its own:
      the rest of the reply maps as if it were absent. */
  lemma UnknownIdDropped(a: seq<Rec>, b: seq<Rec>, id: string, score: Option<int>, reason: Option<string>,
                         index: map<string, ListedItem>)
    requires id !in index
    ensures MapRecs(a + [RecObject(Some(id), score, reason)] + b, index) == MapRecs(a + b, index)
  {
    var u := RecObject(Some(id), score, reason);
    MapRecsAppend(a + [u], b, index);
    MapRecsAppend(a, [u], index);
    MapRecsAppend(a, b, index);
    assert MapRecs([u], index) == Then(MapRecs([], index), Step(u, index));
    var x := MapRecs(a, index);
    if x.Parsed? {
      assert x.suggestions + [] == x.suggestions;
    }
  }

  /** The mapping raises exactly when some element does. */
  lemma {:induction false} MapRecsRaises(recs: seq<Rec>, index: map<string, ListedItem>)
    ensures MapRecs(recs, index).Raised? <==> exists j | 0 <= j < |recs| :: Step(recs[j], index).Raised?
  {
    if recs != [] {
      var init := recs[..|recs| - 1];
      MapRecsRaises(init, index);
      forall j | 0 <= j < |init| ensures init[j] == recs[j] { }
    }
  }

  /** Each mapped suggestion is an indexed item with the 30% price, and there
      are never more suggestions than recommendations. */
  lemma {:induction false} MapRecsEntries(recs: seq<Rec>, index: map<string, ListedItem>)
    requires MapRecs(recs, index).Parsed?
    ensures |MapRecs(recs, index).suggestions| <= |recs|
    ensures forall x :: x in MapRecs(recs, index).suggestions ==>
      x.listed in index.Values && x.discountPrice == DiscountPrice(x.listed.item.originalPrice)
  {
    if recs != [] {
      MapRecsEntries(recs[..|recs| - 1], index);
    }
  }

  /** The whole of `_parse_claude_response`: a decode error yields an empty
      list; any other failure is an exception for the caller. */
  function ParseResponse(response: string, available: seq<ListedItem>, decode: string -> Json): ParseOutcome {
    match decode(CleanResponse(response))
    case DecodeError => Parsed([])
    case JsonOther(empty) => if empty then Parsed([]) else Raised
    case JsonArray(recs) => MapRecs(recs, IndexById(available))
  }

  method ParseClaudeResponse(response: string, available: seq<ListedItem>, decode: string -> Json)
    returns (r: ParseOutcome)
    ensures r == ParseResponse(response, available, decode)
  {
    var cleaned := CleanResponse(response);
    var recommendations := decode(cleaned);
    match recommendations
    case DecodeError =>
      r := Parsed([]);
    case JsonOther(empty) =>
      r := if empty then Parsed([]) else Raised;
    case JsonArray(recs) =>
      var index := BuildIndex(available);
      r := MapRecommendations(recs, index);
  }

  /** The lookup dict, built item by item. */
  method BuildIndex(available: seq<ListedItem>) returns (index: map<string, ListedItem>)
    ensures index == IndexById(available)
  {
    index := map[];
    var i := 0;
    while i < |available|
      invariant 0 <= i <= |available|
      invariant index == IndexById(available[..i])
    {
      var item := available[i];
      index := index[item.item.itemId := item];
      assert available[..i + 1][..i] == available[..i];
      i := i + 1;
    }
    assert available[..i] == available;
  }

  /** The loop over the decoded array; the first exception ends it. */
  method MapRecommendations(recs: seq<Rec>, index: map<string, ListedItem>) returns (r: ParseOutcome)
    ensures r == MapRecs(recs, index)
  {
    var suggestions: seq<Suggestion> := [];
    var j := 0;
    while j < |recs|
      invariant 0 <= j <= |recs|
      invariant MapRecs(recs[..j], index) == Parsed(suggestions)
    {
      var step := Step(recs[j], index);
      assert recs[..j + 1][..j] == recs[..j];
      if step.Raised? {
        MapRecsAppend(recs[..j + 1], recs[j + 1..], index);
        assert recs[..j + 1] + recs[j + 1..] == recs;
        return Raised;
      }
      suggestions := suggestions + step.suggestions;
      j := j + 1;
    }
    assert recs[..j] == recs;
    return Parsed(suggestions);
  }

  // ---------------------------------------------------------------------------
  // _fallback_recommendations
  // ---------------------------------------------------------------------------

  /** 20, plus 10 for a food type in the dietary list, plus the urgency tier. */
  function FallbackScore(dietary: seq<string>, now: int, x: ListedItem): int {
    FALLBACK_BASE_SCORE + DietaryTerm(dietary, x.item.foodType) + UrgencyBonus(x.item.expiry, now)
  }

  function FallbackScorer(dietary: seq<string>, now: int): ListedItem -> int {
    x => FallbackScore(dietary, now, x)
  }

  function Fallback(available: seq<ListedItem>, dietary: seq<string>, now: int): seq<Suggestion> {
    TopK(ScoreAll(Take(available, FALLBACK_WINDOW), FallbackScorer(dietary, now), Some(FALLBACK_REASON)),
      FALLBACK_LIMIT)
  }

  /** Scores the first 12 items, sorts them by score (descending, stable) and
      keeps 8. */
  method FallbackRecommendations(available: seq<ListedItem>, dietary: seq<string>, now: int)
    returns (r: seq<Suggestion>)
    ensures r == Fallback(available, dietary, now)
  {
    r := RankItems(available, FallbackScorer(dietary, now), Some(FALLBACK_REASON), FALLBACK_WINDOW, FALLBACK_LIMIT);
  }

  /** The fallback list has `min(8, 12, |available|)` entries, sorted by score;
      every entry is one of the first 12 items, scores between 20 and 45, and
      carries the 30% price and the fixed reason. */
  lemma FallbackProperties(available: seq<ListedItem>, dietary: seq<string>, now: int)
    ensures |Fallback(available, dietary, now)| == Min(FALLBACK_LIMIT, Min(FALLBACK_WINDOW, |available|))
    ensures SortedDesc(Fallback(available, dietary, now))
    ensures forall x :: x in Fallback(available, dietary, now) ==>
      && x.listed in Take(available, FALLBACK_WINDOW)
      && x.score == FallbackScore(dietary, now, x.listed)
      && FALLBACK_BASE_SCORE <= x.score <= FALLBACK_BASE_SCORE + DIETARY_MATCH_SCORE + URGENT_EXPIRY_SCORE
      && x.discountPrice == DiscountPrice(x.listed.item.originalPrice)
      && x.reason == Some(FALLBACK_REASON)
  {
    var window := Take(available, FALLBACK_WINDOW);
    var s := ScoreAll(window, FallbackScorer(dietary, now), Some(FALLBACK_REASON));
    var r := TopK(s, FALLBACK_LIMIT);
    TopKSelects(s, FALLBACK_LIMIT);
    TopKMembers(s, FALLBACK_LIMIT);
    ScoreAllMembers(window, FallbackScorer(dietary, now), Some(FALLBACK_REASON));
    forall x | x in r
      ensures FALLBACK_BASE_SCORE <= x.score <= FALLBACK_BASE_SCORE + DIETARY_MATCH_SCORE + URGENT_EXPIRY_SCORE
    {
      FallbackScoreBounds(dietary, now, x.listed);
    }
  }

  /** A fallback score lies between 20 and 45. */
  lemma FallbackScoreBounds(dietary: seq<string>, now: int, x: ListedItem)
    ensures FALLBACK_BASE_SCORE <= FallbackScore(dietary, now, x)
              <= FALLBACK_BASE_SCORE + DIETARY_MATCH_SCORE + URGENT_EXPIRY_SCORE
  {
  }

  // ---------------------------------------------------------------------------
  // get_personalized_suggestions
  // ---------------------------------------------------------------------------

  /** The remote call: a reply text, or a failure (HTTP error, timeout, no key). */
  datatype ApiReply = ReplyText(text: string) | ApiFailed

  /** The suggestions returned for the summarised items: the parsed reply, or the
      fallback list when the call fails or parsing raises. */
  function Personalized(available: seq<ListedItem>, dietary: seq<string>, now: int,
                        callApi: seq<ItemSummary> -> ApiReply, decode: string -> Json): seq<Suggestion>
  {
    FromReply(callApi(Summaries(Take(available, PROMPT_ITEM_LIMIT), now)), available, dietary, now, decode)
  }

  /** What one reply of the remote call turns into: a failed call raises like
      a failed parse. */
  function ReplyOutcome(reply: ApiReply, available: seq<ListedItem>, decode: string -> Json): ParseOutcome {
    if reply.ApiFailed? then Raised else ParseResponse(reply.text, available, decode)
  }

  /** The suggestions one reply yields: the parsed ones, or the fallback list
      when the call or the parse raises. */
  function FromReply(reply: ApiReply, available: seq<ListedItem>, dietary: seq<string>, now: int,
                     decode: string -> Json): seq<Suggestion>
  {
    match ReplyOutcome(reply, available, decode)
    case Raised => Fallback(available, dietary, now)
    case Parsed(s) => s
  }

  method GetPersonalizedSuggestions(available: seq<ListedItem>, dietary: seq<string>, now: int,
                                    callApi: seq<ItemSummary> -> ApiReply, decode: string -> Json)
    returns (r: seq<Suggestion>)
    ensures r == Personalized(available, dietary, now, callApi, decode)
  {
    var itemsData := PrepareItemsForClaude(available, now);
    var reply := callApi(itemsData);
    var outcome := CallOutcome(reply, available, decode);
    if outcome.Raised? {
      r := FallbackRecommendations(available, dietary, now);
    } else {
      r := outcome.suggestions;
    }
  }

  /** The `try` block around the call: the parsed reply, or an exception. */
  method CallOutcome(reply: ApiReply, available: seq<ListedItem>, decode: string -> Json)
    returns (outcome: ParseOutcome)
    ensures outcome == ReplyOutcome(reply, available, decode)
  {
    outcome := Raised;
    if reply.ReplyText? {
      outcome := ParseClaudeResponse(reply.text, available, decode);
    }
  }

  /** Every result is either the fallback list or suggestions that are all
      available items priced at 30%. */
  lemma PersonalizedShape(available: seq<ListedItem>, dietary: seq<string>, now: int,
                          callApi: seq<ItemSummary> -> ApiReply, decode: string -> Json)
    ensures var r := Personalized(available, dietary, now, callApi, decode);
      r == Fallback(available, dietary, now)
      || forall x :: x in r ==> x.listed in available && x.discountPrice == DiscountPrice(x.listed.item.originalPrice)
  {
    FromReplyShape(callApi(Summaries(Take(available, PROMPT_ITEM_LIMIT), now)), available, dietary, now, decode);
  }

  /** The same for one reply: a failed call or a raising parse gives the
      fallback list, and parsed suggestions are available items at 30%. */
  lemma FromReplyShape(reply: ApiReply, available: seq<ListedItem>, dietary: seq<string>, now: int,
                       decode: string -> Json)
    ensures var r := FromReply(reply, available, dietary, now, decode);
      r == Fallback(available, dietary, now)
      || forall x :: x in r ==> x.listed in available && x.discountPrice == DiscountPrice(x.listed.item.originalPrice)
  {
    if reply.ReplyText? {
      var outcome := ParseResponse(reply.text, available, decode);
      if outcome.Parsed? {
        assert FromReply(reply, available, dietary, now, decode) == outcome.suggestions;
        ParsedEntries(reply.text, available, decode);
      }
    }
  }

  /** Every parsed suggestion is an available item at the 30% price. */
  lemma ParsedEntries(response: string, available: seq<ListedItem>, decode: string -> Json)
    requires ParseResponse(response, available, decode).Parsed?
    ensures forall x :: x in ParseResponse(response, available, decode).suggestions ==>
      x.listed in available && x.discountPrice == DiscountPrice(x.listed.item.originalPrice)
  {
    var d := decode(CleanResponse(response));
    if d.JsonArray? {
      var index := IndexById(available);
      var r := MapRecs(d.recs, index).suggestions;
      MapRecsEntries(d.recs, index);
      forall x | x in r ensures x.listed in available {
        var id :| id in index && index[id] == x.listed;
      }
    }
  }

  /** A reply that does not decode yields no suggestions at all, whereas a
      failed call yields the fallback list, which is non-empty whenever items
      are available. */
  lemma DecodeErrorGivesNothing(available: seq<ListedItem>, dietary: seq<string>, now: int,
                                callApi: seq<ItemSummary> -> ApiReply, decode: string -> Json)
    requires callApi(Summaries(Take(available, PROMPT_ITEM_LIMIT), now)).ReplyText?
    requires decode(CleanResponse(callApi(Summaries(Take(available, PROMPT_ITEM_LIMIT), now)).text)) == DecodeError
    ensures Personalized(available, dietary, now, callApi, decode) == []
    ensures available != [] ==> |Fallback(available, dietary, now)| > 0
  {
    FallbackProperties(available, dietary, now);
  }

  // ---------------------------------------------------------------------------
  // generate_food_waste_impact
  // ---------------------------------------------------------------------------

  const IMPACT_PREFIX: string := "Amazing! You've saved "
  /** The sentence ends in the four characters the source file holds where an
      emoji was meant. */
  const IMPACT_SUFFIX: string := "meals from waste. Every meal saved makes a difference! \U{F8FF}\U{FC}\U{E5}\U{E7}"

  /** The impact message for `saved` rescued items: the stripped reply, or a
      fixed sentence naming the count when the call fails. The saved amount
      only feeds the prompt. */
  function FoodWasteImpact(saved: nat, reply: ApiReply): string {
    if reply.ReplyText? then Strip(reply.text) else IMPACT_PREFIX + Digits(saved) + " " + IMPACT_SUFFIX
  }

  /** A reply comes back with only its leading and trailing whitespace removed;
      the fallback sentence names the count in decimal right after its fixed
      opening, followed by a non-digit, so the count can be read back from it. */
  lemma ImpactProperties(saved: nat, reply: ApiReply)
    ensures var r := FoodWasteImpact(saved, reply);
      && (reply.ReplyText? ==> StrippedOf(reply.text, r))
      && (reply.ApiFailed? ==>
            var n := |IMPACT_PREFIX| + |Digits(saved)|;
            && StartsWith(r, IMPACT_PREFIX) && n < |r|
            && ParseDecimal(r[|IMPACT_PREFIX|..n]) == saved && !IsDigit(r[n]))
  {
    var r := FoodWasteImpact(saved, reply);
    if reply.ApiFailed? {
      var d := Digits(saved);
      assert r[|IMPACT_PREFIX|..|IMPACT_PREFIX| + |d|] == d;
      assert r[|IMPACT_PREFIX| + |d|] == ' ';
      ParseDigits(saved);
    }
  }
}
