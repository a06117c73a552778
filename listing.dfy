/** What the two listing pages (missing posts and family posts) share: the
    `?page=` query parameter, the sliding ten-page window of the pagination
    bar, the filter object and the query parameters of the search request. */
module Listing {
  import opened Js
  import opened Posts

  /** Pages per pagination group. */
  const GroupSize: int := 10

  /** The `{ startPage, endPage }` that `calculatePageGroup` returns. */
  datatype Window = Window(startPage: int, endPage: int)

  /** `calculatePageGroup`: the group of ten pages holding `currentPage`,
      cut off at `totalPages`. While `totalPages` is still unset
      (`useState()`), `endGroupPage > undefined` is false and the group is
      not cut. */
  function PageGroup(currentPage: int, totalPages: Option<int>): (w: Window)
    ensures w.startPage % GroupSize == 1
    ensures w.startPage <= currentPage < w.startPage + GroupSize
    ensures totalPages.None? ==> w.endPage == w.startPage + GroupSize - 1
    ensures totalPages.Some? ==>
      w.endPage == if w.startPage + GroupSize - 1 > totalPages.value then totalPages.value
                   else w.startPage + GroupSize - 1
  {
    var startGroupPage := ((currentPage - 1) / GroupSize) * GroupSize + 1;
    var endGroupPage := startGroupPage + GroupSize - 1;
    if totalPages.Some? && endGroupPage > totalPages.value then Window(startGroupPage, totalPages.value)
    else Window(startGroupPage, endGroupPage)
  }

  /** For a page in range, the window starts at a page `10k+1`, holds the
      current page and spans at most ten pages. */
  lemma WindowContainsCurrentPage(currentPage: int, totalPages: int)
    requires 1 <= currentPage <= totalPages
    ensures var w := PageGroup(currentPage, Some(totalPages));
      && 1 <= w.startPage <= currentPage <= w.endPage <= totalPages
      && w.endPage - w.startPage <= GroupSize - 1
      && w.startPage % GroupSize == 1
  {
  }

  /** Two pages are in the same window exactly when they lie in the same
      block of ten. */
  lemma {:induction false} SameWindowIffSameBlock(p: int, q: int, totalPages: Option<int>)
    ensures PageGroup(p, totalPages) == PageGroup(q, totalPages) <==> (p - 1) / GroupSize == (q - 1) / GroupSize
  {
    var wp, wq := PageGroup(p, totalPages), PageGroup(q, totalPages);
    if wp.startPage == wq.startPage {
      assert (p - 1) / GroupSize == (wp.startPage - 1) / GroupSize;
      assert (q - 1) / GroupSize == (wq.startPage - 1) / GroupSize;
    }
  }

  /** `parseInt(searchParams.get('page') || '1', 10)` */
  function CurrentPage(pageParam: Option<string>): (n: Num)
    ensures !Truthy(pageParam) ==> n == Int(1)
    ensures Truthy(pageParam) ==> n == ParseInt(pageParam.value)
  {
    ParseIntOfOne();
    ParseInt(if Truthy(pageParam) then pageParam.value else "1")
  }

  /** `setSearchParams({ page })` stores the page number as its decimal
      string, which `CurrentPage` reads back as the same number. */
  lemma PageParamRoundTrip(page: int)
    ensures CurrentPage(Some(IntToString(page))) == Int(page)
  {
    ParseIntOfIntToString(page);
  }

  /** A filter object: keys mapped to a string or null; an absent key reads as `undefined`. */
  type Filters = map<string, Option<string>>

  /** `filters.key` (undefined for a missing key). */
  function Get(f: Filters, key: string): (v: Option<string>)
    ensures key !in f ==> v == None
  {
    if key in f then f[key] else None
  }

  /** A query parameter value: a number (`pageNum`, a parsed `gender_id`) or a string. */
  datatype Param = NumParam(n: Num) | TextParam(s: string)

  /** The `params` object passed to axios. */
  type Params = map<string, Param>

  /** The body of a listing response: `posts` and `total_pages`, either of which may be missing. */
  datatype ListResponse = ListResponse(posts: Option<seq<Post>>, total_pages: Option<int>)
}
