/**
 * The product list route (TypeScript version): search-parameter
 * normalisation, the effect that writes the URL's filters into the filter
 * store (expanding a parent category into its subcategories), the client-side
 * sort of the fetched page, and the adapter that builds the categories array
 * the page passes as the panel's `filters` prop (a prop the panel component
 * does not read).
 */
module ProductsRouteTsx {
  import opened Util
  import PF = ProductFilter
  import opened ProductFilterStore

  /** A raw search-parameter value as the router parses it. */
  datatype RawValue = Missing | Text(s: string) | Flag(b: bool) | OtherValue

  datatype RawSearch = RawSearch(searchQuery: RawValue, categoryId: RawValue, isA11yGuaranteed: RawValue, sellerGrade: RawValue)

  datatype ProductSearch = ProductSearch(searchQuery: string, categoryId: string, isA11yGuaranteed: bool, sellerGrade: string)

  /** `typeof v === 'string' ? v : ''`. */
  function StringOrEmpty(v: RawValue): (s: string)
    ensures v.Text? ==> s == v.s
    ensures !v.Text? ==> s == ""
  {
    if v.Text? then v.s else ""
  }

  /** `validateSearch`. */
  function ValidateSearch(raw: RawSearch): (r: ProductSearch)
    ensures r.searchQuery == StringOrEmpty(raw.searchQuery)
    ensures r.categoryId == StringOrEmpty(raw.categoryId)
    ensures r.sellerGrade == StringOrEmpty(raw.sellerGrade)
    ensures r.isA11yGuaranteed <==> raw.isA11yGuaranteed == Text("true") || raw.isA11yGuaranteed == Flag(true)
  {
    ProductSearch(
      StringOrEmpty(raw.searchQuery),
      StringOrEmpty(raw.categoryId),
      raw.isA11yGuaranteed == Text("true") || raw.isA11yGuaranteed == Flag(true),
      StringOrEmpty(raw.sellerGrade))
  }

  /** The categories the effect stores for a URL category id. */
  function TargetCategories(categoryId: string, tree: seq<PF.Category>): (c: Categories)
    ensures categoryId == "" ==> c == Single("")
    ensures categoryId != "" && PF.FindCategory(tree, categoryId).None? ==> c == Many([categoryId])
    ensures categoryId != "" && PF.FindCategory(tree, categoryId).Some? ==>
      c == Many([categoryId] + PF.SubIds(PF.FindCategory(tree, categoryId).value))
  {
    if categoryId == "" then Single("")
    else match PF.FindCategory(tree, categoryId)
      case None => Many([categoryId])
      case Some(parent) => Many([categoryId] + PF.SubIds(parent))
  }

  /** The `setFilters` call of the effect: every key is written, absent values as '', '' and false. */
  function EffectUpdate(search: ProductSearch, tree: seq<PF.Category>): (u: FilterUpdate)
    ensures u.searchQuery == Some(search.searchQuery) && u.sellerGrade == Some(search.sellerGrade)
    ensures u.isA11yGuaranteed == Some(search.isA11yGuaranteed)
    ensures u.categories == Some(TargetCategories(search.categoryId, tree))
  {
    FilterUpdate(Some(search.searchQuery), Some(TargetCategories(search.categoryId, tree)),
                 Some(search.isA11yGuaranteed), Some(search.sellerGrade))
  }

  /** A URL with no parameters writes the store's initial filters. */
  lemma EmptyUrlGivesInitialFilters(f: Filters, tree: seq<PF.Category>)
    ensures Merge(f, EffectUpdate(ValidateSearch(RawSearch(Missing, Missing, Missing, Missing)), tree)) == InitialFilters
  {
  }

  /** The categories as the array passed in the panel's `filters` prop: an array as is, a non-empty string wrapped, '' as []. */
  function CategoriesArray(c: Categories): (ids: seq<string>)
    ensures c.Many? ==> ids == c.ids
    ensures c.Single? && c.id != "" ==> ids == [c.id]
    ensures c.Single? && c.id == "" ==> ids == []
  {
    match c
    case Many(ids) => ids
    case Single(id) => if id != "" then [id] else []
  }

  /** The array passed in the panel's `filters` prop holds the URL category first and then its subcategories, in the tree's order. */
  lemma TargetCategoriesAsArray(categoryId: string, tree: seq<PF.Category>)
    ensures categoryId == "" ==> CategoriesArray(TargetCategories(categoryId, tree)) == []
    ensures categoryId != "" ==> CategoriesArray(TargetCategories(categoryId, tree)) == [categoryId] + PF.SubcategoryIds(tree, categoryId)
  {
  }

  /** A product of the fetched page; price and sales count may be missing. */
  datatype ProductInfo = ProductInfo(productId: string, productPrice: Option<int>, createdAt: int, salesCount: Option<int>)

  /** `value || 0`. */
  function OrZero(v: Option<int>): (n: int)
    ensures v.Some? ==> n == v.value
    ensures v.None? ==> n == 0
  {
    if v.Some? then v.value else 0
  }

  /**
   * The comparator as an ascending key: `compare(a, b) == key(a) - key(b)`.
   * Dates are whole-millisecond timestamps.
   */
  function SortKey(sortBy: string): ProductInfo -> int
  {
    if sortBy == "price-asc" then (p: ProductInfo) => OrZero(p.productPrice)
    else if sortBy == "price-desc" then (p: ProductInfo) => -OrZero(p.productPrice)
    else if sortBy == "newest" then (p: ProductInfo) => -p.createdAt
    else (p: ProductInfo) => -OrZero(p.salesCount)
  }

  /** `[...(products?.content || [])].sort(compare)`. */
  function SortedProducts(content: Option<seq<ProductInfo>>, sortBy: string): (r: seq<ProductInfo>)
    ensures content.None? ==> r == []
    ensures content.Some? ==> multiset(r) == multiset(content.value) && |r| == |content.value|
    ensures SortedBy(r, SortKey(sortBy))
  {
    var items := if content.Some? then content.value else [];
    SortByKeyCorrect(items, SortKey(sortBy));
    SortByKey(items, SortKey(sortBy))
  }

  /** The sort is stable: products of the fetched page with the same key keep their order. */
  lemma SortedProductsStable(content: seq<ProductInfo>, sortBy: string, p: ProductInfo -> bool, c: int)
    requires forall x :: p(x) == (SortKey(sortBy)(x) == c)
    ensures Filter(SortedProducts(Some(content), sortBy), p) == Filter(content, p)
  {
    SortByKeyStable(content, SortKey(sortBy), p, c);
  }

  /** What each sort order means for neighbouring products. */
  lemma {:induction false} SortOrderMeaning(content: seq<ProductInfo>, sortBy: string, i: int)
    requires 0 <= i < |content| - 1
    ensures sortBy == "price-asc" ==>
      OrZero(SortedProducts(Some(content), sortBy)[i].productPrice) <= OrZero(SortedProducts(Some(content), sortBy)[i + 1].productPrice)
    ensures sortBy == "price-desc" ==>
      OrZero(SortedProducts(Some(content), sortBy)[i].productPrice) >= OrZero(SortedProducts(Some(content), sortBy)[i + 1].productPrice)
    ensures sortBy == "newest" ==>
      SortedProducts(Some(content), sortBy)[i].createdAt >= SortedProducts(Some(content), sortBy)[i + 1].createdAt
    ensures sortBy !in {"price-asc", "price-desc", "newest"} ==>
      OrZero(SortedProducts(Some(content), sortBy)[i].salesCount) >= OrZero(SortedProducts(Some(content), sortBy)[i + 1].salesCount)
  {
    var r := SortedProducts(Some(content), sortBy);
    assert SortKey(sortBy)(r[i]) <= SortKey(sortBy)(r[i + 1]);
  }
}
