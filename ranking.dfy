/** Scored suggestion lists: scoring a window of listed items in a loop, the
    stable descending sort by score (`list.sort(key=score, reverse=True)`) and
    truncation to the top K. */
module Ranking {
  import opened Wrappers
  import opened Models
  import opened Scoring

  /** One suggestion: the listed item, its score, its discount price (tenths of a
      cent) and an optional reason text. */
  datatype Suggestion = Suggestion(listed: ListedItem, score: int, discountPrice: int, reason: Option<string>)

  function Min(a: int, b: int): int {
    if a <= b then a else b
  }

  /** `s[:n]`. */
  function Take<T>(s: seq<T>, n: nat): (r: seq<T>)
    ensures |r| == Min(n, |s|)
  {
    if n < |s| then s[..n] else s
  }

  // ---------------------------------------------------------------------------
  // Stable sort by score, descending
  // ---------------------------------------------------------------------------

  predicate SortedDesc(s: seq<Suggestion>) {
    forall i, j :: 0 <= i < j < |s| ==> s[i].score >= s[j].score
  }

  /** The entries of `s` with score `v`, in order. */
  function WithScore(s: seq<Suggestion>, v: int): seq<Suggestion> {
    if s == [] then []
    else (if s[0].score == v then [s[0]] else []) + WithScore(s[1..], v)
  }

  /** Inserts `x` before the first entry it is not below, so that it stays ahead
      of the entries with its own score. */
  function Insert(x: Suggestion, s: seq<Suggestion>): (r: seq<Suggestion>)
    ensures |r| == |s| + 1
    ensures multiset(r) == multiset(s) + multiset{x}
    ensures r[0] == x || (|s| > 0 && r[0] == s[0])
  {
    if s == [] || x.score >= s[0].score then [x] + s
    else
      var rest := Insert(x, s[1..]);
      assert s == [s[0]] + s[1..];
      [s[0]] + rest
  }

  /** Inserting into a sorted list keeps it sorted. */
  lemma {:induction false} InsertSorted(x: Suggestion, s: seq<Suggestion>)
    requires SortedDesc(s)
    ensures SortedDesc(Insert(x, s))
  {
    if s != [] && x.score < s[0].score {
      var rest := Insert(x, s[1..]);
      InsertSorted(x, s[1..]);
      var r := [s[0]] + rest;
      assert r == Insert(x, s);
      forall i, j | 0 <= i < j < |r| ensures r[i].score >= r[j].score {
        if i == 0 {
          assert rest[0].score <= s[0].score;
          assert r[j] == rest[j - 1];
        }
      }
    }
  }

  /** Stable insertion sort, descending by score. */
  function SortDesc(s: seq<Suggestion>): (r: seq<Suggestion>)
    ensures |r| == |s|
    ensures multiset(r) == multiset(s)
    ensures SortedDesc(r)
  {
    if s == [] then []
    else
      assert s == [s[0]] + s[1..];
      var rest := SortDesc(s[1..]);
      InsertSorted(s[0], rest);
      Insert(s[0], rest)
  }

  lemma {:induction false} InsertStable(x: Suggestion, s: seq<Suggestion>, v: int)
    requires SortedDesc(s)
    ensures WithScore(Insert(x, s), v) == (if x.score == v then [x] else []) + WithScore(s, v)
  {
    if s == [] || x.score >= s[0].score {
      assert ([x] + s)[1..] == s;
    } else {
      InsertStable(x, s[1..], v);
      var r := [s[0]] + Insert(x, s[1..]);
      assert r[1..] == Insert(x, s[1..]);
    }
  }

  /** The sort is stable: for every score, the entries with that score come out in
      the order they went in. */
  lemma {:induction false} SortStable(s: seq<Suggestion>, v: int)
    ensures WithScore(SortDesc(s), v) == WithScore(s, v)
  {
    if s != [] {
      SortStable(s[1..], v);
      InsertStable(s[0], SortDesc(s[1..]), v);
    }
  }

  lemma {:induction false} WithScoreAppend(a: seq<Suggestion>, b: seq<Suggestion>, v: int)
    ensures WithScore(a + b, v) == WithScore(a, v) + WithScore(b, v)
  {
    if a == [] {
      assert a + b == b;
    } else {
      var head := if a[0].score == v then [a[0]] else [];
      assert (a + b)[0] == a[0];
      assert (a + b)[1..] == a[1..] + b;
      assert WithScore(a + b, v) == head + WithScore(a[1..] + b, v);
      WithScoreAppend(a[1..], b, v);
    }
  }

  /** The top `k` entries by score: `sorted(s, key=score, reverse=True)[:k]`. */
  function TopK(s: seq<Suggestion>, k: nat): seq<Suggestion> {
    Take(SortDesc(s), k)
  }

  /** The entries `TopK` leaves out. */
  function Dropped(s: seq<Suggestion>, k: nat): seq<Suggestion> {
    var sorted := SortDesc(s);
    sorted[Min(k, |s|)..]
  }

  /** Keeping the top `k` yields `min(k, |s|)` entries sorted descending; kept
      and left-out entries together are exactly the entries of `s`, and no kept
      entry scores below a left-out one. */
  lemma TopKSelects(s: seq<Suggestion>, k: nat)
    ensures |TopK(s, k)| == Min(k, |s|)
    ensures SortedDesc(TopK(s, k))
    ensures multiset(TopK(s, k)) + multiset(Dropped(s, k)) == multiset(s)
    ensures forall x, y :: x in TopK(s, k) && y in Dropped(s, k) ==> x.score >= y.score
  {
    var sorted := SortDesc(s);
    var n := Min(k, |s|);
    var top := TopK(s, k);
    var rest := Dropped(s, k);
    assert sorted == top + rest;
    forall x, y | x in top && y in rest
      ensures x.score >= y.score
    {
      var i :| 0 <= i < |top| && top[i] == x;
      var j :| 0 <= j < |rest| && rest[j] == y;
      assert sorted[i] == x && sorted[n + j] == y;
    }
  }

  /** Every kept entry is an entry of `s`. */
  lemma TopKMembers(s: seq<Suggestion>, k: nat)
    ensures forall x :: x in TopK(s, k) ==> x in s
  {
    TopKSelects(s, k);
    forall x | x in TopK(s, k) ensures x in s {
      assert x in multiset(TopK(s, k));
    }
  }

  /** For each score, the kept entries with that score are the first entries of
      that score in `s`: ties keep their scan order. */
  lemma TopKKeepsTieOrder(s: seq<Suggestion>, k: nat, v: int)
    ensures var w := WithScore(TopK(s, k), v);
      |w| <= |WithScore(s, v)| && WithScore(s, v)[..|w|] == w
  {
    var sorted := SortDesc(s);
    var n := Min(k, |s|);
    assert sorted == sorted[..n] + sorted[n..];
    assert TopK(s, k) == sorted[..n];
    WithScoreAppend(sorted[..n], sorted[n..], v);
    SortStable(s, v);
  }

  // ---------------------------------------------------------------------------
  // Scoring a window of items
  // ---------------------------------------------------------------------------

  /** One entry per item, in item order, each with its score under `scorer`, its
      discount price and the given reason. */
  function ScoreAll(items: seq<ListedItem>, scorer: ListedItem -> int, reason: Option<string>): (r: seq<Suggestion>)
    ensures |r| == |items|
    ensures forall i :: 0 <= i < |items| ==>
      r[i] == Suggestion(items[i], scorer(items[i]), DiscountPrice(items[i].item.originalPrice), reason)
  {
    if items == [] then []
    else
      var last := items[|items| - 1];
      ScoreAll(items[..|items| - 1], scorer, reason)
        + [Suggestion(last, scorer(last), DiscountPrice(last.item.originalPrice), reason)]
  }

  /** Every scored entry is one of the items, with its score, its discount
      price and the given reason. */
  lemma ScoreAllMembers(items: seq<ListedItem>, scorer: ListedItem -> int, reason: Option<string>)
    ensures forall x :: x in ScoreAll(items, scorer, reason) ==>
      x.listed in items && x.score == scorer(x.listed)
      && x.discountPrice == DiscountPrice(x.listed.item.originalPrice) && x.reason == reason
  {
    var s := ScoreAll(items, scorer, reason);
    forall x | x in s
      ensures x.listed in items && x.score == scorer(x.listed)
      ensures x.discountPrice == DiscountPrice(x.listed.item.originalPrice) && x.reason == reason
    {
      var i :| 0 <= i < |s| && s[i] == x;
    }
  }

  /** Scores the first `window` items in a loop, sorts the list by score
      (descending, stable) and keeps the first `k`. */
  method RankItems(items: seq<ListedItem>, scorer: ListedItem -> int, reason: Option<string>,
                   window: nat, k: nat) returns (r: seq<Suggestion>)
    ensures r == TopK(ScoreAll(Take(items, window), scorer, reason), k)
  {
    var n := Min(window, |items|);
    var scored: seq<Suggestion> := [];
    var i := 0;
    while i < n
      invariant 0 <= i <= n
      invariant scored == ScoreAll(items[..i], scorer, reason)
    {
      var item := items[i];
      scored := scored + [Suggestion(item, scorer(item), DiscountPrice(item.item.originalPrice), reason)];
      assert items[..i + 1][..i] == items[..i];
      i := i + 1;
    }
    assert items[..n] == Take(items, window);
    scored := SortDesc(scored);
    r := Take(scored, k);
  }
}
