/**
 * `[...items].sort((a, b) => time(b.date) - time(a.date))` followed by
 * `slice(0, limit)`, as the "latest posts" and "recent projects" components
 * write it. The date-to-timestamp conversion is a parameter `key`.
 */
module Sorting {
  import opened Lists

  /** Every element is at least as new as every element after it. */
  ghost predicate NewestFirst<T>(s: seq<T>, key: T -> int)
  {
    forall i, j :: 0 <= i < j < |s| ==> key(s[i]) >= key(s[j])
  }

  /**
   * Places `x` in a newest-first sequence, in front of every element that is
   * no newer than it (so an earlier element stays ahead of an equal later one).
   */
  function Insert<T>(x: T, s: seq<T>, key: T -> int): (r: seq<T>)
    requires NewestFirst(s, key)
    ensures multiset(r) == multiset(s) + multiset{x}
    ensures |r| == |s| + 1 && (r[0] == x || (s != [] && r[0] == s[0]))
    ensures NewestFirst(r, key)
  {
    if s == [] || key(x) >= key(s[0]) then
      [x] + s
    else
      assert s == [s[0]] + s[1..];
      [s[0]] + Insert(x, s[1..], key)
  }

  /** A newest-first copy of `s` with the same elements. */
  function SortNewestFirst<T>(s: seq<T>, key: T -> int): (r: seq<T>)
    ensures multiset(r) == multiset(s)
    ensures |r| == |s|
    ensures NewestFirst(r, key)
  {
    if s == [] then []
    else
      assert s == [s[0]] + s[1..];
      Insert(s[0], SortNewestFirst(s[1..], key), key)
  }

  /** Sorting a sequence that is already newest-first leaves it as it is. */
  lemma {:induction false} SortSortedIsIdentity<T>(s: seq<T>, key: T -> int)
    requires NewestFirst(s, key)
    ensures SortNewestFirst(s, key) == s
  {
    if s != [] {
      SortSortedIsIdentity(s[1..], key);
      assert [s[0]] + s[1..] == s;
    }
  }

  /** Sorting is idempotent. */
  lemma SortIdempotent<T>(s: seq<T>, key: T -> int)
    ensures SortNewestFirst(SortNewestFirst(s, key), key) == SortNewestFirst(s, key)
  {
    SortSortedIsIdentity(SortNewestFirst(s, key), key);
  }

  /**
   * The `limit` newest elements of `s`, newest first: taken from the sorted
   * copy, none of the elements left out is newer than any element shown.
   */
  function Newest<T>(s: seq<T>, key: T -> int, limit: nat): (r: seq<T>)
    ensures |r| == Min(limit, |s|)
    ensures NewestFirst(r, key)
    ensures multiset(r) <= multiset(s)
    ensures forall x, y :: x in r && y in multiset(s) - multiset(r) ==> key(y) <= key(x)
  {
    var sorted := SortNewestFirst(s, key);
    var r := Take(sorted, limit);
    NewestPrefixBound(sorted, key, |r|);
    r
  }

  lemma NewestPrefixBound<T>(sorted: seq<T>, key: T -> int, m: nat)
    requires m <= |sorted| && NewestFirst(sorted, key)
    ensures multiset(sorted[..m]) <= multiset(sorted)
    ensures forall x, y :: x in sorted[..m] && y in multiset(sorted) - multiset(sorted[..m]) ==>
      key(y) <= key(x)
  {
    var r, rest := sorted[..m], sorted[m..];
    assert sorted == r + rest;
    assert multiset(sorted) - multiset(r) == multiset(rest);
    forall x, y | x in r && y in multiset(rest)
      ensures key(y) <= key(x)
    {
      var i :| 0 <= i < m && r[i] == x;
      var j :| 0 <= j < |rest| && rest[j] == y;
      assert sorted[i] == x && sorted[m + j] == y;
    }
  }
}
