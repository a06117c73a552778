/** The family-posts listing page: its query parameters (with the
    `hasFilters` guard and the parsed `gender_id`), the projection of the
    response into card rows, and the page controller. */
module FamilyPage {
  import opened Js
  import opened Http
  import opened Posts
  import opened Listing
  import Searchbar

  /** The filter keys this page reads. */
  const FilterKeys: set<string> := {"search_keywords", "gender_id", "missing_birth", "missing_date", "missing_place"}

  /** The initial `searchFilters` state: all five keys null. */
  const InitialFilters: Filters :=
    map["search_keywords" := None, "gender_id" := None, "missing_birth" := None,
        "missing_date" := None, "missing_place" := None]

  /** The outgoing value for a truthy filter: `gender_id` goes through `parseInt`. */
  function FilterParam(key: string, value: string): Param {
    if key == "gender_id" then NumParam(ParseInt(value)) else TextParam(value)
  }

  /** The query of `all_missing_search_family`, as the page builds it: the
      keys are only looked at when `hasFilters` holds. The contract shows the
      guard changes nothing: `pageNum` plus each truthy key of the five. */
  function SearchParams(currentPage: Num, f: Filters): (p: Params)
    ensures "pageNum" in p && p["pageNum"] == NumParam(currentPage)
    ensures forall k :: k in p ==> k == "pageNum" || k in FilterKeys
    ensures Sent(p, f, "search_keywords") && Sent(p, f, "gender_id") && Sent(p, f, "missing_birth")
    ensures Sent(p, f, "missing_date") && Sent(p, f, "missing_place")
  {
    var keywords, gender := Get(f, "search_keywords"), Get(f, "gender_id");
    var birth, date, place := Get(f, "missing_birth"), Get(f, "missing_date"), Get(f, "missing_place");
    var hasFilters := Truthy(keywords) || Truthy(gender) || Truthy(birth) || Truthy(date) || Truthy(place);
    var p0 := map["pageNum" := NumParam(currentPage)];
    if !hasFilters then p0
    else
      var p1 := if Truthy(keywords) then p0["search_keywords" := TextParam(keywords.value)] else p0;
      var p2 := if Truthy(gender) then p1["gender_id" := NumParam(ParseInt(gender.value))] else p1;
      var p3 := if Truthy(birth) then p2["missing_birth" := TextParam(birth.value)] else p2;
      var p4 := if Truthy(date) then p3["missing_date" := TextParam(date.value)] else p3;
      if Truthy(place) then p4["missing_place" := TextParam(place.value)] else p4
  }

  /** The filter `k` reaches the query iff it is truthy, and then as `FilterParam`. */
  predicate Sent(p: Params, f: Filters, k: string) {
    (k in p <==> Truthy(Get(f, k))) && (k in p ==> p[k] == FilterParam(k, Get(f, k).value))
  }

  /** Keys other than the five (such as the search bar's `missing_name`) never reach the request. */
  lemma ForeignKeysIgnored(currentPage: Num, f: Filters, key: string, value: Option<string>)
    requires key !in FilterKeys
    ensures SearchParams(currentPage, f[key := value]) == SearchParams(currentPage, f)
  {
    var p, q := SearchParams(currentPage, f[key := value]), SearchParams(currentPage, f);
    forall k | k in FilterKeys ensures Get(f[key := value], k) == Get(f, k) {
    }
    assert p.Keys == q.Keys;
  }

  /** The search bar emits only its own three keys, so a search from this
      page's search bar sends `pageNum` alone, whatever was typed. */
  lemma SearchbarSearchSendsOnlyPage(currentPage: Num, nameSearch: string, props: Filters)
    ensures SearchParams(currentPage, Searchbar.SearchFilters(nameSearch, props))
      == map["pageNum" := NumParam(currentPage)]
  {
    var f := Searchbar.SearchFilters(nameSearch, props);
    forall k | k in FilterKeys ensures !Truthy(Get(f, k)) {
    }
    assert SearchParams(currentPage, f).Keys == {"pageNum"};
  }

  /** A card row of this page. */
  datatype Row = Row(
    id: Option<string>,
    originalImage: Option<string>,
    genImage: Option<string>,
    name: Option<string>,
    gender: Option<int>,
    birth: Option<string>,
    place: Option<string>,
    date: Option<string>)

  function ToRow(item: Post): Row {
    Row(item.fp_id, item.face_img_origin, item.face_img_aging, item.missing_name, item.gender_id,
        item.missing_birth, item.missing_place, item.missing_date)
  }

  /** `familyData.map(...)`: one row per post, in order. */
  function ToRows(posts: seq<Post>): (rows: seq<Row>)
    ensures |rows| == |posts|
    ensures forall i :: 0 <= i < |posts| ==> rows[i] == ToRow(posts[i])
  {
    if posts == [] then [] else [ToRow(posts[0])] + ToRows(posts[1..])
  }

  /** Each row carries `fp_id` as `id` and `face_img_aging` as `genImage`. */
  lemma RowsProjectPosts(posts: seq<Post>, i: nat)
    requires i < |posts|
    ensures var r := ToRows(posts)[i];
      && r.id == posts[i].fp_id && r.genImage == posts[i].face_img_aging
      && r.originalImage == posts[i].face_img_origin && r.name == posts[i].missing_name
      && r.gender == posts[i].gender_id && r.birth == posts[i].missing_birth
      && r.place == posts[i].missing_place && r.date == posts[i].missing_date
  {
  }

  class Controller {
    /** The `?page=` query parameter. */
    var pageParam: Option<string>
    var cardData: seq<Row>
    var totalPages: Option<int>
    var searchFilters: Filters

    constructor (pageParam: Option<string>)
      ensures this.pageParam == pageParam
      ensures cardData == [] && totalPages == None && searchFilters == InitialFilters
    {
      this.pageParam := pageParam;
      cardData := [];
      totalPages := None;
      searchFilters := InitialFilters;
    }

    function CurrentPage(): Num
      reads this
    {
      Listing.CurrentPage(pageParam)
    }

    /** The window shown by the pagination bar; none while the page is NaN. */
    function PageGroup(): (w: Option<Window>)
      reads this
      ensures w.None? <==> CurrentPage().NaN?
      ensures w.Some? ==> w.value == Listing.PageGroup(CurrentPage().i, totalPages)
      ensures w.Some? && totalPages.Some? && 1 <= CurrentPage().i <= totalPages.value ==>
        w.value.startPage <= CurrentPage().i <= w.value.endPage
        && w.value.endPage - w.value.startPage <= GroupSize - 1
    {
      match CurrentPage()
      case NaN => None
      case Int(c) => Some(Listing.PageGroup(c, totalPages))
    }

    /** The fetch effect: it sends `SearchParams` and, given the outcome,
        replaces the rows and the page count, or empties the rows and keeps
        the page count. */
    method FetchFamilyPosts(outcome: Response<ListResponse>) returns (request: Params)
      modifies this`cardData, this`totalPages
      ensures request == SearchParams(CurrentPage(), searchFilters)
      ensures outcome.Ok? && outcome.data.posts.Some? ==>
        cardData == ToRows(outcome.data.posts.value) && totalPages == outcome.data.total_pages
      ensures !(outcome.Ok? && outcome.data.posts.Some?) ==>
        cardData == [] && totalPages == old(totalPages)
    {
      request := SearchParams(CurrentPage(), searchFilters);
      if outcome.Ok? && outcome.data.posts.Some? {
        cardData := ToRows(outcome.data.posts.value);
        totalPages := outcome.data.total_pages;
      } else {
        // `response.data.posts.map` throws on a missing list: caught like a failed request.
        cardData := [];
      }
    }

    /** `handlePageChange`: the URL now names the chosen page. */
    method HandlePageChange(page: int)
      modifies this`pageParam
      ensures pageParam == Some(IntToString(page)) && CurrentPage() == Int(page)
    {
      pageParam := Some(IntToString(page));
      PageParamRoundTrip(page);
    }

    /** The search bar this page renders: it gets the filters and
        `onSearch`, but no `onFilterChange`, so its menu edits emit nothing. */
    method RenderSearchbar() returns (bar: Searchbar.Searchbar)
      ensures fresh(bar) && bar.searchFilters == searchFilters
      ensures bar.hasOnSearch && !bar.hasOnFilterChange
      ensures bar.nameSearch == "" && !bar.isFilterOpen
    {
      bar := new Searchbar.Searchbar(searchFilters, true, false);
    }

    /** `handleSearch`: new filters, and back to page 1. */
    method HandleSearch(filters: Filters)
      modifies this`searchFilters, this`pageParam
      ensures searchFilters == filters && pageParam == Some("1") && CurrentPage() == Int(1)
    {
      searchFilters := filters;
      pageParam := Some(IntToString(1));
      PageParamRoundTrip(1);
    }
  }
}
