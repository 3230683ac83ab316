/**
 * The page arithmetic both list pages repeat: `Math.ceil(length / perPage)`
 * pages, and page `p` is `slice((p - 1) * perPage, p * perPage)`.
 */
module Paging {
  import opened Lists

  /** Pages are numbered from 1, as the page state and the buttons count them. */
  type PageNumber = p: int | p >= 1 witness 1

  /** `Math.ceil(n / size)`: the least number of pages that holds `n` items. */
  function PageCount(n: nat, size: nat): (r: nat)
    requires size > 0
    ensures n <= r * size
    ensures r > 0 ==> (r - 1) * size < n
    ensures r == 0 <==> n == 0
  {
    var r := (n + size - 1) / size;
    assert (n + size - 1) - size < r * size <= n + size - 1;
    r
  }

  /** Page count grows with the number of items. */
  lemma PageCountMonotone(m: nat, n: nat, size: nat)
    requires size > 0 && m <= n
    ensures PageCount(m, size) <= PageCount(n, size)
  {
  }

  lemma MulMonotone(a: int, b: int, c: nat)
    requires a <= b
    ensures a * c <= b * c
  {
  }

  /** Where page `page` starts relative to the `n` items. */
  lemma PageBounds(n: nat, size: nat, page: PageNumber)
    requires size > 0
    ensures page * size == (page - 1) * size + size
    ensures page > PageCount(n, size) ==> n <= (page - 1) * size
    ensures page <= PageCount(n, size) ==> (page - 1) * size < n
  {
    var c := PageCount(n, size);
    if page > c {
      MulMonotone(c, page - 1, size);
    } else {
      MulMonotone(page - 1, c - 1, size);
    }
  }

  /** Page `page` of `s`: `s.slice((page - 1) * size, page * size)`. */
  function PageSlice<T>(s: seq<T>, page: PageNumber, size: nat): (r: seq<T>)
    requires size > 0
    ensures |r| <= size
    ensures page > PageCount(|s|, size) ==> r == []
    ensures page <= PageCount(|s|, size) ==>
      (page - 1) * size < |s| && r == s[(page - 1) * size..Min(page * size, |s|)] && r != []
  {
    PageBounds(|s|, size, page);
    Slice(s, (page - 1) * size, page * size)
  }

  /** Pages 1 to `k` of `s`, one after the other. */
  function Pages<T>(s: seq<T>, size: nat, k: nat): seq<T>
    requires size > 0
  {
    if k == 0 then [] else Pages(s, size, k - 1) + PageSlice(s, k, size)
  }

  lemma {:induction false} PagesArePrefix<T>(s: seq<T>, size: nat, k: nat)
    requires size > 0
    ensures Pages(s, size, k) == s[..Min(k * size, |s|)]
  {
    if k > 0 {
      PagesArePrefix(s, size, k - 1);
      var lo, hi := Min((k - 1) * size, |s|), Min(k * size, |s|);
      assert (k - 1) * size + size == k * size;
      assert lo <= hi;
      if k <= PageCount(|s|, size) {
        assert s[..hi] == s[..lo] + s[lo..hi];
      } else {
        assert PageCount(|s|, size) * size <= (k - 1) * size;
        assert lo == hi;
      }
    }
  }

  /** Concatenating pages 1 to `PageCount` gives back the whole list. */
  lemma PagesConcatenate<T>(s: seq<T>, size: nat)
    requires size > 0
    ensures Pages(s, size, PageCount(|s|, size)) == s
  {
    PagesArePrefix(s, size, PageCount(|s|, size));
    assert s[..|s|] == s;
  }
}
