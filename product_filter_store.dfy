/**
 * The product filter store: the filters of the product list and its sort
 * order. `setFilters` merges a partial update over the current filters,
 * `setSortBy` replaces the sort, `resetFilters` restores the initial state.
 */
module ProductFilterStore {
  import opened Util

  /** `categories: string | string[]`. */
  datatype Categories = Single(id: string) | Many(ids: seq<string>)

  datatype Filters = Filters(searchQuery: string, categories: Categories, isA11yGuaranteed: bool, sellerGrade: string)

  /** A `Partial` of the filters: a missing key is `None`. */
  datatype FilterUpdate = FilterUpdate(
    searchQuery: Option<string>,
    categories: Option<Categories>,
    isA11yGuaranteed: Option<bool>,
    sellerGrade: Option<string>)

  const InitialFilters := Filters("", Single(""), false, "")
  const InitialSortBy := "on-development"
  const NoUpdate := FilterUpdate(None, None, None, None)

  /** `{ ...filters, ...update }`. */
  function Merge(f: Filters, u: FilterUpdate): (r: Filters)
    ensures u.searchQuery.Some? ==> r.searchQuery == u.searchQuery.value
    ensures u.searchQuery.None? ==> r.searchQuery == f.searchQuery
    ensures u.categories.Some? ==> r.categories == u.categories.value
    ensures u.categories.None? ==> r.categories == f.categories
    ensures u.isA11yGuaranteed.Some? ==> r.isA11yGuaranteed == u.isA11yGuaranteed.value
    ensures u.isA11yGuaranteed.None? ==> r.isA11yGuaranteed == f.isA11yGuaranteed
    ensures u.sellerGrade.Some? ==> r.sellerGrade == u.sellerGrade.value
    ensures u.sellerGrade.None? ==> r.sellerGrade == f.sellerGrade
  {
    Filters(
      if u.searchQuery.Some? then u.searchQuery.value else f.searchQuery,
      if u.categories.Some? then u.categories.value else f.categories,
      if u.isA11yGuaranteed.Some? then u.isA11yGuaranteed.value else f.isA11yGuaranteed,
      if u.sellerGrade.Some? then u.sellerGrade.value else f.sellerGrade)
  }

  /** The update that applies `u` and then `v`: `v`'s keys win. */
  function Then(u: FilterUpdate, v: FilterUpdate): FilterUpdate
  {
    FilterUpdate(
      if v.searchQuery.Some? then v.searchQuery else u.searchQuery,
      if v.categories.Some? then v.categories else u.categories,
      if v.isA11yGuaranteed.Some? then v.isA11yGuaranteed else u.isA11yGuaranteed,
      if v.sellerGrade.Some? then v.sellerGrade else u.sellerGrade)
  }

  /** An empty update changes nothing; applying an update again changes nothing more. */
  lemma MergeNeutralAndIdempotent(f: Filters, u: FilterUpdate)
    ensures Merge(f, NoUpdate) == f
    ensures Merge(Merge(f, u), u) == Merge(f, u)
  {
  }

  /** Two merges in a row are one merge of the combined update. */
  lemma MergeCompose(f: Filters, u: FilterUpdate, v: FilterUpdate)
    ensures Merge(Merge(f, u), v) == Merge(f, Then(u, v))
  {
  }

  class FilterStore {
    var filters: Filters
    var sortBy: string

    constructor()
      ensures filters == InitialFilters && sortBy == InitialSortBy
    {
      filters := InitialFilters;
      sortBy := InitialSortBy;
    }

    method SetFilters(update: FilterUpdate)
      modifies this
      ensures filters == Merge(old(filters), update)
      ensures sortBy == old(sortBy)
    {
      filters := Merge(filters, update);
    }

    method SetSortBy(s: string)
      modifies this
      ensures sortBy == s && filters == old(filters)
    {
      sortBy := s;
    }

    method ResetFilters()
      modifies this
      ensures filters == InitialFilters && sortBy == InitialSortBy
    {
      filters := InitialFilters;
      sortBy := InitialSortBy;
    }
  }
}
