/** Turning page and limit parameters into a slice of a result list, in 64-bit arithmetic. */
module Pagination {
  import opened Text

  const MAX_INT := 0x7fff_ffff_ffff_ffff
  const MIN_INT := -0x8000_0000_0000_0000

  /** Two's complement wrap-around. */
  function Wrap(x: int): int {
    (x + 0x8000_0000_0000_0000) % 0x1_0000_0000_0000_0000 - 0x8000_0000_0000_0000
  }

  predicate Fits(x: int) {
    MIN_INT <= x <= MAX_INT
  }

  const NO_LIMIT := -1

  function Offset(limit: int, page: int): int {
    Wrap(Wrap(page - 1) * limit)
  }

  /** Start and end index for `total` results. */
  function GetValidPagination(limit: int, offset: int, total: nat): (int, int) {
    if limit == NO_LIMIT then (0, total)
    else if limit < 0 || offset < 0 || offset > total then (0, 0)
    else
      var end := Wrap(offset + limit);
      (offset, if end > total then total else end)
  }

  /** A missing or unreadable limit means no pagination, a missing or unreadable page the first. */
  function ParsePagination(limitParam: Option<int>, pageParam: Option<int>): (int, int) {
    var limit := if limitParam.Some? then limitParam.value else NO_LIMIT;
    var page := if pageParam.Some? then pageParam.value else 1;
    (limit, Offset(limit, page))
  }

  /** The one 64-bit integer congruent to `x`. */
  lemma WrapFits(x: int)
    ensures Fits(Wrap(x)) && (Wrap(x) - x) % 0x1_0000_0000_0000_0000 == 0
    ensures Fits(x) ==> Wrap(x) == x
  {}

  /** The indices delimit a slice of the results exactly when adding the limit to a usable offset does not overflow. */
  lemma IndicesValidExactly(limit: int, offset: int, total: nat)
    requires Fits(limit) && Fits(offset) && Fits(total)
    ensures var (start, end) := GetValidPagination(limit, offset, total);
      0 <= start <= end <= total <==> !(limit >= 0 && 0 <= offset <= total && offset + limit > MAX_INT)
  {}

  /** The failing family is reachable from request parameters: this page and limit give end before start. */
  lemma IndicesCanCross()
    ensures var (limit, offset) := ParsePagination(Some(MAX_INT), Some(MIN_INT));
      var (start, end) := GetValidPagination(limit, offset, 1);
      end < start
  {
    assert Wrap(MIN_INT - 1) == MAX_INT;
    assert MAX_INT * MAX_INT == 1 + (0x4000_0000_0000_0000 - 1) * 0x1_0000_0000_0000_0000;
    assert Wrap(MAX_INT * MAX_INT) == 1;
  }

  /** Without a limit everything is shown, whatever the page. */
  lemma NoLimitShowsAll(page: Option<int>, total: nat)
    ensures var (limit, offset) := ParsePagination(None, page); GetValidPagination(limit, offset, total) == (0, total)
  {}

  /** Without a page the first one is shown: the results up to the limit, and none for a limit below one. */
  lemma NoPageShowsFirst(limitParam: int, total: nat)
    requires Fits(limitParam) && Fits(total) && limitParam != NO_LIMIT
    ensures var (limit, offset) := ParsePagination(Some(limitParam), None);
      GetValidPagination(limit, offset, total)
        == (0, if limitParam < 0 then 0 else if limitParam < total then limitParam else total)
  {
    WrapFits(limitParam);
  }

  // ----- Pages -----

  /** The whole computation stays within 64 bits. */
  predicate NoOverflow(limit: int, page: int) {
    Fits(page - 1) && Fits((page - 1) * limit) && Fits((page - 1) * limit + limit)
  }

  function Min(a: int, b: int): int {
    if a < b then a else b
  }

  /** What the caller gets to see of `items`. */
  function Page<T>(items: seq<T>, limit: int, page: int): seq<T>
    requires limit > 0 && NoOverflow(limit, page)
  {
    var (start, end) := GetValidPagination(limit, Offset(limit, page), |items|);
    if 0 <= start <= end <= |items| then items[start..end] else []
  }

  function PageCount(total: nat, limit: int): nat
    requires limit > 0
  {
    (total + limit - 1) / limit
  }

  lemma PageCountIs(total: nat, limit: int)
    requires limit > 0
    ensures var n := PageCount(total, limit); n * limit >= total && (n > 0 ==> (n - 1) * limit < total)
  {}

  lemma OffsetExact(limit: int, page: int)
    requires NoOverflow(limit, page)
    ensures Offset(limit, page) == (page - 1) * limit
  {}

  lemma PageIs<T>(items: seq<T>, limit: int, page: int)
    requires limit > 0 && NoOverflow(limit, page) && Fits(|items|)
    ensures Page(items, limit, page) ==
      if 0 <= (page - 1) * limit <= |items|
      then items[(page - 1) * limit..Min((page - 1) * limit + limit, |items|)] else []
  {
    OffsetExact(limit, page);
    WrapFits((page - 1) * limit + limit);
  }

  function Pages<T>(items: seq<T>, limit: int, n: nat): seq<T>
    requires limit > 0 && forall k :: 1 <= k <= n ==> NoOverflow(limit, k)
  {
    if n == 0 then [] else Pages(items, limit, n - 1) + Page(items, limit, n)
  }

  /** Where a page starts. */
  lemma PageStart(total: nat, limit: int, n: nat)
    requires limit > 0 && 1 <= n <= PageCount(total, limit)
    ensures 0 <= (n - 1) * limit < total && n * limit == (n - 1) * limit + limit
  {
    PageCountIs(total, limit);
    MulMonotone(n - 1, PageCount(total, limit) - 1, limit);
  }

  lemma SliceStep<T>(items: seq<T>, a: int, b: int)
    requires 0 <= a <= b <= |items|
    ensures items[..a] + items[a..b] == items[..b]
  {}

  lemma {:induction false} PagesPrefix<T>(items: seq<T>, limit: int, n: nat)
    requires limit > 0 && Fits(|items|) && n <= PageCount(|items|, limit)
    requires forall k :: 1 <= k <= n ==> NoOverflow(limit, k)
    ensures 0 <= n * limit && Pages(items, limit, n) == items[..Min(n * limit, |items|)]
  {
    if n > 0 {
      PagesPrefix(items, limit, n - 1);
      PageIs(items, limit, n);
      PageStart(|items|, limit, n);
      SliceStep(items, (n - 1) * limit, Min(n * limit, |items|));
    }
  }

  lemma MulMonotone(a: int, b: int, k: int)
    requires a <= b && k > 0
    ensures a * k <= b * k
  {}

  /** Pages partition the results: the pages from 1 to ceil(total / limit), put together in order, are the results,
      each exactly once. */
  lemma PagesPartition<T>(items: seq<T>, limit: int)
    requires limit > 0 && Fits(|items|)
    requires forall k :: 1 <= k <= PageCount(|items|, limit) ==> NoOverflow(limit, k)
    ensures Pages(items, limit, PageCount(|items|, limit)) == items
  {
    var n := PageCount(|items|, limit);
    PagesPrefix(items, limit, n);
    PageCountIs(|items|, limit);
  }

  /** Every other page is empty. */
  lemma OtherPagesEmpty<T>(items: seq<T>, limit: int, page: int)
    requires limit > 0 && Fits(|items|) && NoOverflow(limit, page)
    requires page < 1 || page > PageCount(|items|, limit)
    ensures Page(items, limit, page) == []
  {
    PageIs(items, limit, page);
    PageCountIs(|items|, limit);
    if page < 1 {
      MulMonotone(page - 1, -1, limit);
    } else {
      MulMonotone(PageCount(|items|, limit), page - 1, limit);
    }
  }
}
