/**
 * The product-list query hook: the request parameters are the caller's own
 * when it passes any, and are otherwise derived from the filter store; the
 * cache key and the fetch use the same parameters.
 */
module ProductQueries {
  import opened Util
  import opened ProductFilterStore

  datatype ProductSearchParams = ProductSearchParams(
    page: Option<int>,
    size: Option<int>,
    sort: Option<string>,
    category: Option<string>,
    keyword: Option<string>)

  /** `value || undefined` for a string. */
  function NonEmpty(s: string): (r: Option<string>)
    ensures r.None? <==> s == ""
    ensures r.Some? ==> r.value == s
  {
    if s == "" then None else Some(s)
  }

  /** The category sent: an array's first element (none for `[]`), or a non-empty string. */
  function CategoryParam(c: Categories): (r: Option<string>)
    ensures c.Many? && c.ids == [] ==> r.None?
    ensures c.Many? && c.ids != [] ==> r == Some(c.ids[0])
    ensures c.Single? ==> r == NonEmpty(c.id)
  {
    match c
    case Many(ids) => if ids == [] then None else Some(ids[0])
    case Single(id) => NonEmpty(id)
  }

  /** `queryParams` of `useGetProducts`. */
  function QueryParams(params: Option<ProductSearchParams>, filters: Filters, sortBy: string): (q: ProductSearchParams)
    ensures params.Some? ==> q == params.value
    ensures params.None? ==> q.page.None? && q.size.None?
    ensures params.None? ==> q.keyword == NonEmpty(filters.searchQuery) && q.category == CategoryParam(filters.categories)
    ensures params.None? ==> (q.sort.None? <==> sortBy == InitialSortBy)
    ensures params.None? && sortBy != InitialSortBy ==> q.sort == Some(sortBy)
  {
    if params.Some? then params.value
    else
      ProductSearchParams(None, None, if sortBy != InitialSortBy then Some(sortBy) else None,
                          CategoryParam(filters.categories), NonEmpty(filters.searchQuery))
  }

  /** The cache key of a product list, `productKeys.list(params)`. */
  datatype ListKey = ListKey(params: ProductSearchParams)

  /** What the hook hands to the query client: a key and the parameters the fetch is called with. */
  datatype ListQuery = ListQuery(key: ListKey, fetchParams: ProductSearchParams)

  function UseGetProducts(params: Option<ProductSearchParams>, filters: Filters, sortBy: string): (q: ListQuery)
    ensures q.key.params == q.fetchParams
    ensures q.fetchParams == QueryParams(params, filters, sortBy)
  {
    var p := QueryParams(params, filters, sortBy);
    ListQuery(ListKey(p), p)
  }

  /** The store's initial state asks for everything: no keyword, no category, no sort. */
  lemma InitialStoreQuery()
    ensures QueryParams(None, InitialFilters, InitialSortBy) == ProductSearchParams(None, None, None, None, None)
  {
  }

  /** Two store states that differ only in the parts the hook does not read give the same request. */
  lemma UnreadFieldsIgnored(f: Filters, a11y: bool, grade: string, sortBy: string)
    ensures QueryParams(None, f.(isA11yGuaranteed := a11y, sellerGrade := grade), sortBy) == QueryParams(None, f, sortBy)
  {
  }
}
