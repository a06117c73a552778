/** The search bar of the listing pages: a name box, a drop-down menu with
    two more filters, and the guard that a search needs at least one filter. */
module Searchbar {
  import opened Js
  import opened Listing

  /** The only keys the search bar ever emits. */
  const SearchKeys: set<string> := {"missing_name", "missing_situation", "missing_extra_evidence"}

  /** The filter object `handleSearch` builds from the name box and the
      parent's filters; empty strings become null. */
  function SearchFilters(nameSearch: string, props: Filters): (f: Filters)
    ensures f.Keys == SearchKeys
    ensures f["missing_name"] == OrNull(nameSearch)
    ensures f["missing_situation"] == NullIfFalsy(Get(props, "missing_situation"))
    ensures f["missing_extra_evidence"] == NullIfFalsy(Get(props, "missing_extra_evidence"))
    ensures forall k :: k in f ==> f[k] != Some("")
  {
    map[
      "missing_name" := OrNull(nameSearch),
      "missing_situation" := NullIfFalsy(Get(props, "missing_situation")),
      "missing_extra_evidence" := NullIfFalsy(Get(props, "missing_extra_evidence"))]
  }

  /** `filters.missing_name || filters.missing_situation || filters.missing_extra_evidence` */
  predicate HasAnyFilter(f: Filters) {
    Truthy(Get(f, "missing_name")) || Truthy(Get(f, "missing_situation")) || Truthy(Get(f, "missing_extra_evidence"))
  }

  /** What one search action does: alert and stop, call `onSearch` once with
      the filters, or nothing (no handler was passed). */
  datatype SearchEffect = MissingFilterAlert | EmitSearch(filters: Filters) | NoEffect

  /** The decision `handleSearch` makes. */
  function SearchEffectOf(nameSearch: string, props: Filters, hasOnSearch: bool): (e: SearchEffect)
    ensures e.MissingFilterAlert? <==>
      nameSearch == "" && !Truthy(Get(props, "missing_situation")) && !Truthy(Get(props, "missing_extra_evidence"))
    ensures e.EmitSearch? <==> !e.MissingFilterAlert? && hasOnSearch
    ensures e.EmitSearch? ==> e.filters == SearchFilters(nameSearch, props) && HasAnyFilter(e.filters)
  {
    var filters := SearchFilters(nameSearch, props);
    if !HasAnyFilter(filters) then MissingFilterAlert
    else if hasOnSearch then EmitSearch(filters)
    else NoEffect
  }

  /** `{ ...searchFilters, [field]: value || null }` */
  function MergeFilter(props: Filters, field: string, value: string): (f: Filters)
    ensures f.Keys == props.Keys + {field}
    ensures f[field] == OrNull(value)
    ensures forall k :: k in props && k != field ==> f[k] == props[k]
  {
    props[field := OrNull(value)]
  }

  /** An edited menu filter is what the next search sends for that key. */
  lemma EditedFilterIsSearched(nameSearch: string, props: Filters, field: string, value: string)
    requires field == "missing_situation" || field == "missing_extra_evidence"
    ensures SearchFilters(nameSearch, MergeFilter(props, field, value))[field] == OrNull(value)
  {
  }

  class Searchbar {
    var nameSearch: string
    var isFilterOpen: bool
    /** The parent's `searchFilters` prop, as of the last render. */
    var searchFilters: Filters
    const hasOnSearch: bool
    const hasOnFilterChange: bool

    constructor (searchFilters: Filters, hasOnSearch: bool, hasOnFilterChange: bool)
      ensures this.searchFilters == searchFilters
      ensures this.hasOnSearch == hasOnSearch && this.hasOnFilterChange == hasOnFilterChange
      ensures nameSearch == "" && !isFilterOpen
    {
      this.searchFilters := searchFilters;
      this.hasOnSearch := hasOnSearch;
      this.hasOnFilterChange := hasOnFilterChange;
      nameSearch := "";
      isFilterOpen := false;
    }

    /** The parent re-renders with new filters. */
    method Rerender(searchFilters: Filters)
      modifies this`searchFilters
      ensures this.searchFilters == searchFilters
    {
      this.searchFilters := searchFilters;
    }

    /** `handleNameSearch`: typing in the name box. */
    method HandleNameSearch(value: string)
      modifies this`nameSearch
      ensures nameSearch == value
    {
      nameSearch := value;
    }

    /** The triangle button opens or closes the filter menu. */
    method ToggleFilterMenu()
      modifies this`isFilterOpen
      ensures isFilterOpen == !old(isFilterOpen)
    {
      isFilterOpen := !isFilterOpen;
    }

    /** `handleFilterChange`: the merged filters go to `onFilterChange`;
        without that handler nothing is emitted. */
    method HandleFilterChange(field: string, value: string) returns (emitted: Option<Filters>)
      ensures emitted.None? <==> !hasOnFilterChange
      ensures emitted.Some? ==> emitted.value == MergeFilter(searchFilters, field, value)
    {
      if hasOnFilterChange {
        emitted := Some(searchFilters[field := OrNull(value)]);
      } else {
        emitted := None;
      }
    }

    /** `handleSearch`, run by the search button. */
    method HandleSearch() returns (effect: SearchEffect)
      ensures effect == SearchEffectOf(nameSearch, searchFilters, hasOnSearch)
    {
      var filters := map[
        "missing_name" := OrNull(nameSearch),
        "missing_situation" := NullIfFalsy(Get(searchFilters, "missing_situation")),
        "missing_extra_evidence" := NullIfFalsy(Get(searchFilters, "missing_extra_evidence"))];
      var hasAnyFilter := Truthy(filters["missing_name"]) || Truthy(filters["missing_situation"])
        || Truthy(filters["missing_extra_evidence"]);
      if !hasAnyFilter {
        effect := MissingFilterAlert;
        return;
      }
      effect := if hasOnSearch then EmitSearch(filters) else NoEffect;
    }

    /** `handleKeyPress`: Enter in the name box searches like the button; other keys do nothing. */
    method HandleKeyPress(key: string) returns (effect: SearchEffect)
      ensures key == "Enter" ==> effect == SearchEffectOf(nameSearch, searchFilters, hasOnSearch)
      ensures key != "Enter" ==> effect == NoEffect
    {
      if key == "Enter" {
        effect := HandleSearch();
      } else {
        effect := NoEffect;
      }
    }
  }
}
