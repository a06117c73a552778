/** The missing-persons listing page: its query parameters, the projection of
    the response into card rows, and the page controller whose handlers
    replace the filters, the URL page and the fetched rows. */
module MissingPage {
  import opened Js
  import opened Http
  import opened Posts
  import opened Listing
  import Searchbar

  /** The filter keys this page sends. */
  const FilterKeys: set<string> := {"missing_name", "missing_situation", "missing_extra_evidence"}

  /** The initial `searchFilters` state: all three keys null. */
  const InitialFilters: Filters :=
    map["missing_name" := None, "missing_situation" := None, "missing_extra_evidence" := None]

  /** The query of `all_missing_search_missing`: `pageNum` and every truthy filter, unchanged. */
  function SearchParams(currentPage: Num, f: Filters): (p: Params)
    ensures "pageNum" in p && p["pageNum"] == NumParam(currentPage)
    ensures forall k :: k in p <==> k == "pageNum" || (k in FilterKeys && Truthy(Get(f, k)))
    ensures forall k :: k in FilterKeys && Truthy(Get(f, k)) ==> p[k] == TextParam(Get(f, k).value)
  {
    var p0 := map["pageNum" := NumParam(currentPage)];
    var name := Get(f, "missing_name");
    var p1 := if Truthy(name) then p0["missing_name" := TextParam(name.value)] else p0;
    var situation := Get(f, "missing_situation");
    var p2 := if Truthy(situation) then p1["missing_situation" := TextParam(situation.value)] else p1;
    var evidence := Get(f, "missing_extra_evidence");
    if Truthy(evidence) then p2["missing_extra_evidence" := TextParam(evidence.value)] else p2
  }

  /** A card row of this page. */
  datatype Row = Row(
    id: Option<string>,
    originalImage: Option<string>,
    name: Option<string>,
    gender: Option<int>,
    birth: Option<string>,
    place: Option<string>,
    date: Option<string>)

  function ToRow(item: Post): Row {
    Row(item.mp_id, item.face_img_origin, item.missing_name, item.gender_id,
        item.missing_birth, item.missing_place, item.missing_date)
  }

  /** `missingData.map(...)`: one row per post, in order. */
  function ToRows(posts: seq<Post>): (rows: seq<Row>)
    ensures |rows| == |posts|
    ensures forall i :: 0 <= i < |posts| ==> rows[i] == ToRow(posts[i])
  {
    if posts == [] then [] else [ToRow(posts[0])] + ToRows(posts[1..])
  }

  /** Each row carries its post's `mp_id` as `id` and the post's own fields. */
  lemma RowsProjectPosts(posts: seq<Post>, i: nat)
    requires i < |posts|
    ensures var r := ToRows(posts)[i];
      && r.id == posts[i].mp_id && r.name == posts[i].missing_name
      && r.originalImage == posts[i].face_img_origin && r.gender == posts[i].gender_id
      && r.birth == posts[i].missing_birth && r.place == posts[i].missing_place
      && r.date == posts[i].missing_date
  {
  }

  class Controller {
    /** The `?page=` query parameter. */
    var pageParam: Option<string>
    var cardData: seq<Row>
    var totalPages: Option<int>
    var searchFilters: Filters

    constructor (pageParam: Option<string>)
      ensures this.pageParam == pageParam
      ensures cardData == [] && totalPages == None && searchFilters == InitialFilters
    {
      this.pageParam := pageParam;
      cardData := [];
      totalPages := None;
      searchFilters := InitialFilters;
    }

    function CurrentPage(): Num
      reads this
    {
      Listing.CurrentPage(pageParam)
    }

    /** The window shown by the pagination bar; none while the page is NaN. */
    function PageGroup(): (w: Option<Window>)
      reads this
      ensures w.None? <==> CurrentPage().NaN?
      ensures w.Some? ==> w.value == Listing.PageGroup(CurrentPage().i, totalPages)
      ensures w.Some? && totalPages.Some? && 1 <= CurrentPage().i <= totalPages.value ==>
        w.value.startPage <= CurrentPage().i <= w.value.endPage
        && w.value.endPage - w.value.startPage <= GroupSize - 1
    {
      match CurrentPage()
      case NaN => None
      case Int(c) =>
        Some(Listing.PageGroup(c, totalPages))
    }

    /** The fetch effect, run when the page or the filters change: it sends
        `SearchParams` and, given the outcome, replaces the rows and the
        page count, or empties the rows and keeps the page count. */
    method FetchMissingPersons(outcome: Response<ListResponse>) returns (request: Params)
      modifies this`cardData, this`totalPages
      ensures request == SearchParams(CurrentPage(), searchFilters)
      ensures outcome.Ok? && outcome.data.posts.Some? ==>
        cardData == ToRows(outcome.data.posts.value) && totalPages == outcome.data.total_pages
      ensures !(outcome.Ok? && outcome.data.posts.Some?) ==>
        cardData == [] && totalPages == old(totalPages)
    {
      request := SearchParams(CurrentPage(), searchFilters);
      if outcome.Ok? && outcome.data.posts.Some? {
        cardData := ToRows(outcome.data.posts.value);
        totalPages := outcome.data.total_pages;
      } else {
        // `response.data.posts.map` throws on a missing list: caught like a failed request.
        cardData := [];
      }
    }

    /** `handlePageChange`: the URL now names the chosen page. */
    method HandlePageChange(page: int)
      modifies this`pageParam
      ensures pageParam == Some(IntToString(page)) && CurrentPage() == Int(page)
    {
      pageParam := Some(IntToString(page));
      PageParamRoundTrip(page);
    }

    /** The search bar this page renders: it gets the filters, `onSearch`
        and `onFilterChange`. */
    method RenderSearchbar() returns (bar: Searchbar.Searchbar)
      ensures fresh(bar) && bar.searchFilters == searchFilters
      ensures bar.hasOnSearch && bar.hasOnFilterChange
      ensures bar.nameSearch == "" && !bar.isFilterOpen
    {
      bar := new Searchbar.Searchbar(searchFilters, true, true);
    }

    /** `handleSearch`: new filters, and back to page 1. */
    method HandleSearch(filters: Filters)
      modifies this`searchFilters, this`pageParam
      ensures searchFilters == filters && pageParam == Some("1") && CurrentPage() == Int(1)
    {
      searchFilters := filters;
      pageParam := Some(IntToString(1));
      PageParamRoundTrip(1);
    }

    /** `handleFilterChange`: new filters, same page. */
    method HandleFilterChange(filters: Filters)
      modifies this`searchFilters
      ensures searchFilters == filters
    {
      searchFilters := filters;
    }
  }
}
