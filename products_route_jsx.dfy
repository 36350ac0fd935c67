/**
 * The product list route (JavaScript version): search-parameter
 * normalisation, a fetch whose result is kept only on HTTP 200, and a
 * client-side filter (query, categories) and sort over the fetched products.
 */
module ProductsRouteJsx {
  import opened Util
  import PF = ProductFilter
  import Tsx = ProductsRouteTsx

  /** `validateSearch`: only the string 'true' turns the accessibility flag on. */
  function ValidateSearch(raw: Tsx.RawSearch): (r: Tsx.ProductSearch)
    ensures r.searchQuery == Tsx.StringOrEmpty(raw.searchQuery)
    ensures r.categoryId == Tsx.StringOrEmpty(raw.categoryId)
    ensures r.sellerGrade == Tsx.StringOrEmpty(raw.sellerGrade)
    ensures r.isA11yGuaranteed <==> raw.isA11yGuaranteed == Tsx.Text("true")
  {
    Tsx.ProductSearch(
      Tsx.StringOrEmpty(raw.searchQuery),
      Tsx.StringOrEmpty(raw.categoryId),
      raw.isA11yGuaranteed == Tsx.Text("true"),
      Tsx.StringOrEmpty(raw.sellerGrade))
  }

  /** The two routes disagree only on a boolean `true`, which this one rejects. */
  lemma ValidateSearchDiffers(raw: Tsx.RawSearch)
    ensures ValidateSearch(raw) == Tsx.ValidateSearch(raw) <==> raw.isA11yGuaranteed != Tsx.Flag(true)
  {
  }

  /** `[...categoryId]`: one single-character string per character. */
  function SpreadCategories(categoryId: string): (cats: seq<string>)
    ensures |cats| == |categoryId|
    ensures forall i :: 0 <= i < |cats| ==> cats[i] == [categoryId[i]]
  {
    seq(|categoryId|, i requires 0 <= i < |categoryId| => [categoryId[i]])
  }

  /** A category id of two or more characters is itself never among the initial categories. */
  lemma SpreadLosesLongIds(categoryId: string)
    requires |categoryId| >= 2
    ensures categoryId !in SpreadCategories(categoryId)
  {
  }

  /** The filter state this page reads: the panel's query and categories. */
  datatype PageFilters = PageFilters(searchQuery: string, categories: seq<string>)

  datatype Product = Product(
    productName: Option<string>,
    productDescription: Option<string>,
    categoryId: string,
    productPrice: int,
    /** The field the price sorts read; the product responses carry `productPrice` instead. */
    price: Option<int>,
    createdAt: int,
    salesCount: int)

  /** `field?.toLowerCase()?.includes(query)`: a missing field never matches. */
  predicate FieldMatches(field: Option<string>, query: string)
  {
    field.Some? && Includes(Lower(field.value), query)
  }

  /** The filter callback. */
  predicate Keeps(f: PageFilters, p: Product)
  {
    (f.searchQuery == "" || FieldMatches(p.productName, Lower(f.searchQuery)) || FieldMatches(p.productDescription, Lower(f.searchQuery))) &&
    (|f.categories| == 0 || p.categoryId in f.categories)
  }

  function FilterProducts(products: seq<Product>, f: PageFilters): (r: seq<Product>)
    ensures IsSubseq(r, products)
    ensures forall p :: p in r <==> p in products && Keeps(f, p)
  {
    var r := Filter(products, (p: Product) => Keeps(f, p));
    FilterIsSubseq(products, (p: Product) => Keeps(f, p));
    forall p
      ensures p in r <==> p in products && Keeps(f, p)
    {
      FilterMembership(products, (p: Product) => Keeps(f, p), p);
    }
    r
  }

  /** No query and no categories keep every product. */
  lemma EmptyFiltersKeepAll(products: seq<Product>)
    ensures FilterProducts(products, PageFilters("", [])) == products
  {
    FilterKeepsAll(products, (p: Product) => Keeps(PageFilters("", []), p));
  }

  /**
   * The comparator as an ascending key. A missing `price` makes the JavaScript
   * subtraction NaN, which the sort reads as "equal"; that is key 0 here.
   */
  function SortKey(sortBy: string): Product -> int
  {
    if sortBy == "price-asc" then (p: Product) => if p.price.Some? then p.price.value else 0
    else if sortBy == "price-desc" then (p: Product) => if p.price.Some? then -p.price.value else 0
    else if sortBy == "newest" then (p: Product) => -p.createdAt
    else (p: Product) => -p.salesCount
  }

  function SortProducts(products: seq<Product>, sortBy: string): (r: seq<Product>)
    ensures multiset(r) == multiset(products) && |r| == |products|
    ensures SortedBy(r, SortKey(sortBy))
  {
    SortByKeyCorrect(products, SortKey(sortBy));
    SortByKey(products, SortKey(sortBy))
  }

  /** The sort is stable: products with the same key keep their filtered order. */
  lemma SortProductsStable(products: seq<Product>, sortBy: string, p: Product -> bool, c: int)
    requires forall x :: p(x) == (SortKey(sortBy)(x) == c)
    ensures Filter(SortProducts(products, sortBy), p) == Filter(products, p)
  {
    SortByKeyStable(products, SortKey(sortBy), p, c);
  }

  /**
   * When the products carry only `productPrice`, both price sorts leave the
   * filtered order as it is: the price a product really has is never compared.
   */
  lemma PriceSortIgnoresProductPrice(products: seq<Product>, sortBy: string)
    requires sortBy == "price-asc" || sortBy == "price-desc"
    requires forall i :: 0 <= i < |products| ==> products[i].price.None?
    ensures SortProducts(products, sortBy) == products
  {
    var key := SortKey(sortBy);
    assert forall i :: 0 <= i < |products| ==> key(products[i]) == 0;
    NoneKeyedIdentity(products, key);
  }

  /** Sorting by a key that is 0 on every element keeps the order. */
  lemma {:induction false} NoneKeyedIdentity(s: seq<Product>, key: Product -> int)
    requires forall i :: 0 <= i < |s| ==> key(s[i]) == 0
    ensures SortByKey(s, key) == s
    decreases |s|
  {
    if s != [] {
      assert forall i :: 0 <= i < |s[1..]| ==> key(s[1..][i]) == 0;
      NoneKeyedIdentity(s[1..], key);
      InsertFront(s[0], s[1..], key);
      assert s == [s[0]] + s[1..];
    }
  }

  /** Inserting an element whose key is not above the first key puts it at the front. */
  lemma InsertFront(x: Product, s: seq<Product>, key: Product -> int)
    requires key(x) == 0 && forall i :: 0 <= i < |s| ==> key(s[i]) == 0
    ensures Insert(x, s, key) == [x] + s
  {
  }

  /** The fetch either answers with an HTTP status and data, or throws. */
  datatype FetchOutcome = Answered(status: int, data: seq<Product>) | Thrown

  /** The query sent to the server: the URL's own parameters. */
  datatype ProductsQuery = ProductsQuery(search: string, categoryId: string, certified: bool, grade: string)

  class ProductsPage {
    const search: Tsx.ProductSearch
    var products: seq<Product>
    var filters: PageFilters
    var sortBy: string
    var isLoading: bool
    var queries: seq<ProductsQuery>
    var errorToasts: nat

    constructor(s: Tsx.ProductSearch)
      ensures search == s && products == [] && sortBy == "on-development" && !isLoading
      ensures filters == PageFilters(s.searchQuery, SpreadCategories(s.categoryId))
      ensures queries == [] && errorToasts == 0
    {
      search := s;
      products := [];
      filters := PageFilters(s.searchQuery, SpreadCategories(s.categoryId));
      sortBy := "on-development";
      isLoading := false;
      queries := [];
      errorToasts := 0;
    }

    /** What the page lists: the fetched products that pass the filters, each once, in the chosen order. */
    function Shown(): (r: seq<Product>)
      reads this
      ensures multiset(r) == multiset(FilterProducts(products, filters))
      ensures SortedBy(r, SortKey(sortBy))
    {
      SortProducts(FilterProducts(products, filters), sortBy)
    }

    /** The fetch effect: products are replaced only on HTTP 200. */
    method Fetch(outcome: FetchOutcome)
      modifies this
      ensures queries == old(queries) + [ProductsQuery(search.searchQuery, search.categoryId, search.isA11yGuaranteed, search.sellerGrade)]
      ensures outcome.Answered? && outcome.status == 200 ==> products == outcome.data
      ensures !(outcome.Answered? && outcome.status == 200) ==> products == old(products)
      ensures errorToasts == old(errorToasts) + (if outcome.Thrown? then 1 else 0)
      ensures !isLoading && filters == old(filters) && sortBy == old(sortBy)
    {
      isLoading := true;
      queries := queries + [ProductsQuery(search.searchQuery, search.categoryId, search.isA11yGuaranteed, search.sellerGrade)];
      match outcome {
        case Answered(status, data) =>
          if status == 200 {
            products := data;
          }
        case Thrown =>
          errorToasts := errorToasts + 1;
      }
      isLoading := false;
    }

    /** `onFilterChange={setFilters}`: the panel's report replaces the filters. */
    method SetFilters(change: PF.FilterChange)
      modifies this
      ensures filters == PageFilters(change.searchQuery, change.categories)
      ensures products == old(products) && sortBy == old(sortBy) && queries == old(queries)
      ensures isLoading == old(isLoading) && errorToasts == old(errorToasts)
    {
      filters := PageFilters(change.searchQuery, change.categories);
    }

    method SetSortBy(s: string)
      modifies this
      ensures sortBy == s && products == old(products) && filters == old(filters) && queries == old(queries)
      ensures isLoading == old(isLoading) && errorToasts == old(errorToasts)
    {
      sortBy := s;
    }
  }
}
