/** Random draws as nondeterministic choice: `random.randint` within its bounds
    and `random.sample` of distinct positions. Only the bounds and the
    distinctness are modelled, not the distribution. */
module Sampling {

  /** No element occurs twice. */
  predicate Distinct<T(==)>(s: seq<T>) {
    forall i, j :: 0 <= i < j < |s| ==> s[i] != s[j]
  }

  /** Appending a new value keeps a sequence free of repeats. */
  lemma DistinctSnoc<T>(s: seq<T>, x: T)
    requires Distinct(s) && x !in s
    ensures Distinct(s + [x])
  {
    forall i, j | 0 <= i < j < |s + [x]| ensures (s + [x])[i] != (s + [x])[j] {
      if j == |s| { assert (s + [x])[i] == s[i]; }
    }
  }

  /** `random.randint(lo, hi)`: some integer in the closed range. */
  method RandInt(lo: int, hi: int) returns (r: int)
    requires lo <= hi
    ensures lo <= r <= hi
  {
    r :| lo <= r <= hi;
  }

  /** `random.sample(pool, k)`: `k` entries taken from distinct positions of
      `pool`, so every value occurs at most as often as in `pool`. Each draw
      takes one entry out of what is left. */
  method Sample<T>(pool: seq<T>, k: nat) returns (picked: seq<T>)
    requires k <= |pool|
    ensures |picked| == k
    ensures multiset(picked) <= multiset(pool)
  {
    var rest := pool;
    picked := [];
    while |picked| < k
      invariant |picked| <= k
      invariant |picked| + |rest| == |pool|
      invariant multiset(picked) + multiset(rest) == multiset(pool)
      decreases k - |picked|
    {
      var j :| 0 <= j < |rest|;
      assert rest == rest[..j] + [rest[j]] + rest[j + 1..];
      picked := picked + [rest[j]];
      rest := rest[..j] + rest[j + 1..];
    }
  }

  /** A sample holds only entries of the pool. */
  lemma SampleMembers<T>(picked: seq<T>, pool: seq<T>)
    requires multiset(picked) <= multiset(pool)
    ensures forall x :: x in picked ==> x in pool
  {
    forall x | x in picked ensures x in pool {
      assert x in multiset(picked);
    }
  }

  /** A sample of a pool without repeated entries has no repeated entries. */
  lemma {:induction false} SampleDistinct<T>(picked: seq<T>, pool: seq<T>)
    requires multiset(picked) <= multiset(pool)
    requires Distinct(pool)
    ensures Distinct(picked)
  {
    DistinctCounts(pool);
    forall i, j | 0 <= i < j < |picked| ensures picked[i] != picked[j] {
      if picked[i] == picked[j] {
        TwoOccurrences(picked, i, j);
      }
    }
  }

  /** Equal entries at two positions make a count of at least two. */
  lemma TwoOccurrences<T>(s: seq<T>, i: nat, j: nat)
    requires i < j < |s| && s[i] == s[j]
    ensures multiset(s)[s[i]] >= 2
  {
    assert s == s[..i] + [s[i]] + s[i + 1..j] + [s[j]] + s[j + 1..];
  }

  /** In a sequence without repeats every value occurs at most once. */
  lemma {:induction false} DistinctCounts<T>(s: seq<T>)
    requires Distinct(s)
    ensures forall x :: multiset(s)[x] <= 1
  {
    if s != [] {
      var init := s[..|s| - 1];
      var last := s[|s| - 1];
      assert s == init + [last];
      DistinctCounts(init);
      assert last !in init;
    }
  }
}
