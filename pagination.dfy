/** Offset pagination of a resource listing: the query parameters, the page
    slice and the metadata block of the response. */
module Pagination {
  import opened Wrappers

  const DefaultPageSize := 10
  const MaxPageSize := 100

  function Min(a: int, b: int): int { if a <= b then a else b }
  function Max(a: int, b: int): int { if a >= b then a else b }

  /** A query parameter: absent, or present with the outcome of Python's
      `int()` on its text (`None` when `int()` raises `ValueError`). */
  datatype QueryArg = Absent | Given(parsed: Option<int>)

  datatype PageParams = PageParams(page: int, perPage: int)

  /** `int(request.args.get(name, default))`. */
  function ArgOr(arg: QueryArg, default: int): (r: Option<int>)
    ensures arg.Absent? ==> r == Some(default)
    ensures r.None? <==> arg == Given(None)
    ensures arg.Given? && r.Some? ==> r == arg.parsed
  {
    match arg
    case Absent => Some(default)
    case Given(p) => p
  }

  /** `get_pagination_params`: page at least 1, per_page clamped into
      [1, 100]; if either parameter does not parse, both fall back to the
      defaults (1, 10). */
  function PaginationParams(pageArg: QueryArg, perPageArg: QueryArg): (r: PageParams)
    ensures r.page >= 1 && 1 <= r.perPage <= MaxPageSize
    ensures pageArg.Absent? && perPageArg.Absent? ==> r == PageParams(1, DefaultPageSize)
    ensures pageArg == Given(None) || perPageArg == Given(None) ==> r == PageParams(1, DefaultPageSize)
    ensures ArgOr(pageArg, 1).Some? && ArgOr(perPageArg, DefaultPageSize).Some? ==>
              var p, n := ArgOr(pageArg, 1).value, ArgOr(perPageArg, DefaultPageSize).value;
              && (p >= 1 ==> r.page == p) && (p < 1 ==> r.page == 1)
              && (1 <= n <= MaxPageSize ==> r.perPage == n)
              && (n < 1 ==> r.perPage == 1) && (n > MaxPageSize ==> r.perPage == MaxPageSize)
  {
    match (ArgOr(pageArg, 1), ArgOr(perPageArg, DefaultPageSize))
    case (Some(p), Some(n)) => PageParams(Max(1, p), Min(MaxPageSize, Max(1, n)))
    case _ => PageParams(1, DefaultPageSize)
  }

  /** `ceil(n / d)`, computed exactly. */
  function CeilDiv(n: nat, d: nat): (q: nat)
    requires d >= 1
    ensures q == 0 <==> n == 0
    ensures n <= d ==> q <= 1
  {
    (n + d - 1) / d
  }

  /** `CeilDiv` is the ceiling: the least q with q * d >= n. */
  lemma CeilDivIsCeiling(n: nat, d: nat)
    requires d >= 1
    ensures CeilDiv(n, d) * d >= n
    ensures CeilDiv(n, d) > 0 ==> (CeilDiv(n, d) - 1) * d < n
    ensures CeilDiv(n, d) == 0 <==> n == 0
  {
    var q, r := (n + d - 1) / d, (n + d - 1) % d;
    assert n + d - 1 == q * d + r && 0 <= r < d;
    assert q * d >= n;
    if q > 0 {
      assert (q - 1) * d == q * d - d;
    }
  }

  /** Stands for the URL `{base_url}?page={page}&per_page={perPage}`. */
  datatype PageLink = PageLink(page: int, perPage: int)

  datatype Metadata = Metadata(
    totalItems: nat,
    totalPages: nat,
    currentPage: int,
    perPage: int,
    firstPage: Option<PageLink>,
    lastPage: Option<PageLink>,
    nextPage: Option<PageLink>,
    prevPage: Option<PageLink>)

  /** `get_page_url`: page number 0 is falsy in Python and gives no link. */
  function PageUrl(pageNum: int, perPage: int): (r: Option<PageLink>)
    ensures r.None? <==> pageNum == 0
  {
    if pageNum == 0 then None else Some(PageLink(pageNum, perPage))
  }

  /** `get_pagination_metadata`. The current page is the requested one clamped
      into [1, max(1, total_pages)]; next and prev links exist exactly away
      from the respective boundary; an empty resource has 0 pages and no
      last-page link. */
  function PaginationMetadata(totalItems: nat, page: int, perPage: int): (m: Metadata)
    requires perPage >= 1
    ensures m.totalItems == totalItems && m.perPage == perPage
    ensures m.totalPages * perPage >= totalItems
    ensures m.totalPages > 0 ==> (m.totalPages - 1) * perPage < totalItems
    ensures m.totalPages == 0 <==> totalItems == 0
    ensures m.currentPage >= 1
    ensures totalItems > 0 ==> m.currentPage <= m.totalPages
    ensures totalItems == 0 ==> m.currentPage == 1
    ensures page < 1 ==> m.currentPage == 1
    ensures 1 <= page <= m.totalPages ==> m.currentPage == page
    ensures page > m.totalPages > 0 ==> m.currentPage == m.totalPages
    ensures m.firstPage == Some(PageLink(1, perPage))
    ensures m.lastPage.None? <==> totalItems == 0
    ensures m.lastPage.Some? ==> m.lastPage.value == PageLink(m.totalPages, perPage)
    ensures m.nextPage.Some? <==> m.currentPage < m.totalPages
    ensures m.nextPage.Some? ==> m.nextPage.value == PageLink(m.currentPage + 1, perPage)
    ensures m.prevPage.Some? <==> m.currentPage > 1
    ensures m.prevPage.Some? ==> m.prevPage.value == PageLink(m.currentPage - 1, perPage)
  {
    var totalPages := CeilDiv(totalItems, perPage);
    CeilDivIsCeiling(totalItems, perPage);
    var current := Min(Max(1, page), Max(1, totalPages));
    Metadata(
      totalItems, totalPages, current, perPage,
      PageUrl(1, perPage),
      PageUrl(totalPages, perPage),
      if current < totalPages then PageUrl(current + 1, perPage) else None,
      if current > 1 then PageUrl(current - 1, perPage) else None)
  }

  /** `start_idx = (page - 1) * per_page`: the offset of a page's first record. */
  function PageStart(page: int, perPage: int): (s: nat)
    requires page >= 1 && perPage >= 1
    ensures page == 1 ==> s == 0
    ensures page > 1 ==> s >= perPage
  {
    (page - 1) * perPage
  }

  /** The slice `items[start_idx : start_idx + per_page]`, with Python's
      clamping of slice bounds to the length. */
  function PageOf<T>(items: seq<T>, page: int, perPage: int): (r: seq<T>)
    requires page >= 1 && perPage >= 1
    ensures |r| <= perPage
    ensures PageStart(page, perPage) >= |items| ==> r == []
    ensures PageStart(page, perPage) < |items| ==>
              |r| == Min(perPage, |items| - PageStart(page, perPage)) &&
              r == items[PageStart(page, perPage)..PageStart(page, perPage) + |r|]
  {
    var start := PageStart(page, perPage);
    items[Min(start, |items|)..Min(start + perPage, |items|)]
  }

  /** Record `i` is listed on page `i / per_page + 1`, at position
      `i % per_page`. */
  lemma ItemOnItsPage<T>(items: seq<T>, perPage: int, i: int)
    requires perPage >= 1 && 0 <= i < |items|
    ensures i / perPage + 1 >= 1
    ensures i % perPage < |PageOf(items, i / perPage + 1, perPage)|
    ensures PageOf(items, i / perPage + 1, perPage)[i % perPage] == items[i]
  {
    var p := i / perPage + 1;
    assert i == (p - 1) * perPage + i % perPage;
  }

  /** Pages 1..n laid end to end. */
  function PagesUpTo<T>(items: seq<T>, perPage: int, n: nat): seq<T>
    requires perPage >= 1
  {
    if n == 0 then [] else PagesUpTo(items, perPage, n - 1) + PageOf(items, n, perPage)
  }

  lemma {:induction false} PagesUpToIsPrefix<T>(items: seq<T>, perPage: int, n: nat)
    requires perPage >= 1
    ensures PagesUpTo(items, perPage, n) == items[..Min(n * perPage, |items|)]
  {
    if n > 0 {
      PagesUpToIsPrefix(items, perPage, n - 1);
      assert (n - 1) * perPage + perPage == n * perPage;
      var lo := Min((n - 1) * perPage, |items|);
      var hi := Min(n * perPage, |items|);
      assert items[..lo] + items[lo..hi] == items[..hi];
    }
  }

  /** Pages 1..total_pages list every record exactly once, in stored order. */
  lemma PagesCoverAll<T>(items: seq<T>, perPage: int)
    requires perPage >= 1
    ensures PagesUpTo(items, perPage, CeilDiv(|items|, perPage)) == items
  {
    CeilDivIsCeiling(|items|, perPage);
    PagesUpToIsPrefix(items, perPage, CeilDiv(|items|, perPage));
  }

  /** A page past the last one is empty even though the metadata clamps the
      current page to the last page. */
  lemma PastLastPageIsEmpty<T>(items: seq<T>, page: int, perPage: int)
    requires page >= 1 && perPage >= 1
    requires page > PaginationMetadata(|items|, page, perPage).totalPages
    ensures PageOf(items, page, perPage) == []
    ensures |items| > 0 ==> PaginationMetadata(|items|, page, perPage).currentPage
                            == PaginationMetadata(|items|, page, perPage).totalPages
  {
    var m := PaginationMetadata(|items|, page, perPage);
    assert page - 1 >= m.totalPages;
    assert (page - 1) * perPage >= m.totalPages * perPage;
  }

  /** 25 records at 10 per page: 3 pages of 10, 10 and 5; no previous link on
      page 1 and no next link on page 3. */
  lemma TwentyFiveItemsExample<T>(items: seq<T>)
    requires |items| == 25
    ensures PaginationMetadata(25, 1, 10).totalPages == 3
    ensures |PageOf(items, 1, 10)| == 10 && |PageOf(items, 2, 10)| == 10 && |PageOf(items, 3, 10)| == 5
    ensures PaginationMetadata(25, 1, 10).prevPage.None?
    ensures PaginationMetadata(25, 3, 10).nextPage.None?
  {
  }
}
