/**
 * Page arithmetic of the character browser (`src/pages/Home.js`): the page
 * count, the ten-element page cut out of a result list, the Previous/Next
 * clamps and the pager label.
 */
module Paging {
  import opened Seqs

  const PageSize: nat := 10

  /** `Math.ceil(totalCount / 10)`: the least number of pages that holds every result. */
  function TotalPages(count: nat): (t: nat)
    ensures t * PageSize >= count
    ensures t > 0 ==> (t - 1) * PageSize < count
  {
    (count + PageSize - 1) / PageSize
  }

  /** Page `page` (counted from 1) of a list: up to ten items starting at index `(page - 1) * 10`. */
  function PageOf<T(!new)>(s: seq<T>, page: int): (r: seq<T>)
    ensures |r| <= PageSize
    ensures forall x :: x in r ==> x in s
    ensures page >= 1 ==>
      var start := (page - 1) * PageSize;
      |r| == (if |s| <= start then 0 else if |s| - start < PageSize then |s| - start else PageSize) &&
      forall i :: 0 <= i < |r| ==> r[i] == s[start + i]
  {
    var start := (page - 1) * PageSize;
    Slice(s, start, start + PageSize)
  }

  /** Pages 1 to `n` laid end to end. */
  function PagesUpTo<T(!new)>(s: seq<T>, n: nat): seq<T> {
    if n == 0 then [] else PagesUpTo(s, n - 1) + PageOf(s, n)
  }

  lemma {:induction false} PagesUpToPrefix<T(!new)>(s: seq<T>, n: nat)
    ensures PagesUpTo(s, n) == s[..if n * PageSize <= |s| then n * PageSize else |s|]
  {
    if n > 0 {
      PagesUpToPrefix(s, n - 1);
      var lo := if (n - 1) * PageSize <= |s| then (n - 1) * PageSize else |s|;
      var hi := if n * PageSize <= |s| then n * PageSize else |s|;
      var p := PageOf(s, n);
      assert |p| == hi - lo;
      assert s[..hi] == s[..lo] + p;
    }
  }

  /**
   * The pages from 1 to `TotalPages` partition the result list: laid end to
   * end they give back every result once, in order.
   */
  lemma PagesPartition<T(!new)>(s: seq<T>)
    ensures PagesUpTo(s, TotalPages(|s|)) == s
  {
    PagesUpToPrefix(s, TotalPages(|s|));
  }

  /** A page is non-empty exactly when its number lies between 1 and `TotalPages`. */
  lemma PageInRange<T(!new)>(s: seq<T>, page: int)
    requires page >= 1
    ensures PageOf(s, page) != [] <==> page <= TotalPages(|s|)
  {
    var t := TotalPages(|s|);
    if page <= t {
      assert (page - 1) * PageSize <= (t - 1) * PageSize;
    } else {
      assert (page - 1) * PageSize >= t * PageSize;
    }
  }

  /** The page the Previous button moves to: one back, but never below page 1. */
  function PreviousPage(p: int): (r: int)
    ensures r >= 1
    ensures p > 1 ==> r == p - 1
    ensures p <= 1 ==> r == 1
  {
    if 1 > p - 1 then 1 else p - 1
  }

  /** The page the Next button moves to: one forward, but never past the last page. */
  function NextPage(p: int, totalPages: nat): (r: int)
    ensures r <= totalPages
    ensures p < totalPages ==> r == p + 1
    ensures p >= totalPages ==> r == totalPages
    ensures totalPages >= 1 && p >= 1 ==> r >= 1
  {
    if totalPages < p + 1 then totalPages else p + 1
  }

  /** The pager is rendered only when there is something to page through. */
  predicate PagerVisible(totalCount: nat) {
    totalCount > 0
  }

  /** The page count the pager label shows: the number of pages, or 1 when there are none. */
  function LabelPages(totalPages: nat): (r: nat)
    ensures r >= 1
    ensures totalPages > 0 ==> r == totalPages
  {
    if totalPages == 0 then 1 else totalPages
  }
}
