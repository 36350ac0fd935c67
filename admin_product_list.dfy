/**
 * The admin product list: a search form (field, keyword, status), a fetch that
 * sends the form as query parameters, and local status edits on the fetched
 * rows.
 */
module AdminProductList {
  import opened Util

  const PageSize := 20
  const FetchFailedText := "상품 데이터를 불러오는 데 실패했습니다."

  datatype ProductRow = ProductRow(productId: string, productName: string, productStatus: string)

  /** The arguments of `getAllProducts(keyword, status, page, size)`. */
  datatype ListQuery = ListQuery(keyword: string, status: string, page: int, size: int)

  /** The query the form sends: 'ALL' becomes '', and the page goes zero-based. */
  function QueryFor(searchKeyword: string, orderStatus: string, page: int): (q: ListQuery)
    ensures q.keyword == searchKeyword
    ensures q.status == "" <==> orderStatus == "ALL" || orderStatus == ""
    ensures q.status != "" ==> q.status == orderStatus
    ensures q.page == page - 1 && q.size == PageSize
  {
    var status := if orderStatus == "ALL" then "" else orderStatus;
    ListQuery(searchKeyword, status, page - 1, PageSize)
  }

  /** `prevData.map(p => p.productId === productId ? { ...p, productStatus: newStatus } : p)`. */
  function ChangeStatus(rows: seq<ProductRow>, productId: string, newStatus: string): (r: seq<ProductRow>)
    ensures |r| == |rows|
    ensures forall i :: 0 <= i < |rows| && rows[i].productId == productId ==>
      r[i] == rows[i].(productStatus := newStatus)
    ensures forall i :: 0 <= i < |rows| && rows[i].productId != productId ==> r[i] == rows[i]
  {
    seq(|rows|, i requires 0 <= i < |rows| =>
      if rows[i].productId == productId then rows[i].(productStatus := newStatus) else rows[i])
  }

  /** A status change on an id no row has changes nothing. */
  lemma ChangeStatusUnknownId(rows: seq<ProductRow>, productId: string, newStatus: string)
    requires forall i :: 0 <= i < |rows| ==> rows[i].productId != productId
    ensures ChangeStatus(rows, productId, newStatus) == rows
  {
  }

  /** The later of two status changes on one id wins. */
  lemma ChangeStatusLastWins(rows: seq<ProductRow>, productId: string, first: string, second: string)
    ensures ChangeStatus(ChangeStatus(rows, productId, first), productId, second) == ChangeStatus(rows, productId, second)
  {
  }

  /** The list call resolves with a count and rows, or throws with an optional message. */
  datatype FetchOutcome = Fetched(totalCount: int, products: seq<ProductRow>) | FetchError(message: Option<string>)

  /** `err.message || fallback`. */
  function ToastText(message: Option<string>): (s: string)
    ensures message.Some? && message.value != "" ==> s == message.value
    ensures message.None? || message.value == "" ==> s == FetchFailedText
  {
    if message.Some? && message.value != "" then message.value else FetchFailedText
  }

  class ProductListPage {
    var productData: seq<ProductRow>
    var searchField: string
    var searchKeyword: string
    var orderStatus: string
    /** The page state has no caller of its setter, so it stays 1. */
    const page: int := 1
    var totalCount: int
    var queries: seq<ListQuery>
    var errorToasts: seq<string>

    constructor()
      ensures productData == [] && searchField == "product" && searchKeyword == "" && orderStatus == "ALL"
      ensures page == 1 && totalCount == 0 && queries == [] && errorToasts == []
    {
      productData := [];
      searchField := "product";
      searchKeyword := "";
      orderStatus := "ALL";
      totalCount := 0;
      queries := [];
      errorToasts := [];
    }

    /** `fetchProducts`, on mount and on search: one query from the current form; a failure keeps the data. */
    method FetchProducts(outcome: FetchOutcome)
      modifies this
      ensures queries == old(queries) + [QueryFor(searchKeyword, orderStatus, page)]
      ensures outcome.Fetched? ==>
        totalCount == outcome.totalCount && productData == outcome.products && errorToasts == old(errorToasts)
      ensures outcome.FetchError? ==>
        totalCount == old(totalCount) && productData == old(productData) &&
        errorToasts == old(errorToasts) + [ToastText(outcome.message)]
      ensures searchField == old(searchField) && searchKeyword == old(searchKeyword) && orderStatus == old(orderStatus)
    {
      queries := queries + [QueryFor(searchKeyword, orderStatus, page)];
      match outcome {
        case Fetched(count, rows) =>
          totalCount := count;
          productData := rows;
        case FetchError(message) =>
          errorToasts := errorToasts + [ToastText(message)];
      }
    }

    method HandleStatusChange(productId: string, newStatus: string)
      modifies this
      ensures productData == ChangeStatus(old(productData), productId, newStatus)
      ensures totalCount == old(totalCount) && queries == old(queries) && errorToasts == old(errorToasts)
      ensures searchField == old(searchField) && searchKeyword == old(searchKeyword) && orderStatus == old(orderStatus)
    {
      productData := ChangeStatus(productData, productId, newStatus);
    }

    method SetSearchKeyword(keyword: string)
      modifies this
      ensures searchKeyword == keyword
      ensures productData == old(productData) && totalCount == old(totalCount) && queries == old(queries)
      ensures searchField == old(searchField) && orderStatus == old(orderStatus) && errorToasts == old(errorToasts)
    {
      searchKeyword := keyword;
    }

    method SetOrderStatus(status: string)
      modifies this
      ensures orderStatus == status
      ensures productData == old(productData) && totalCount == old(totalCount) && queries == old(queries)
      ensures searchField == old(searchField) && searchKeyword == old(searchKeyword) && errorToasts == old(errorToasts)
    {
      orderStatus := status;
    }

    method SetSearchField(field: string)
      modifies this
      ensures searchField == field
      ensures productData == old(productData) && totalCount == old(totalCount) && queries == old(queries)
      ensures searchKeyword == old(searchKeyword) && orderStatus == old(orderStatus) && errorToasts == old(errorToasts)
    {
      searchField := field;
    }

    /** Clears the form; neither the rows nor the page change, and nothing is fetched. */
    method ResetFilters()
      modifies this
      ensures searchKeyword == "" && orderStatus == "ALL" && searchField == "product"
      ensures productData == old(productData) && totalCount == old(totalCount)
      ensures queries == old(queries) && errorToasts == old(errorToasts)
      ensures QueryFor(searchKeyword, orderStatus, page) == ListQuery("", "", 0, PageSize)
    {
      searchKeyword := "";
      orderStatus := "ALL";
      searchField := "product";
    }
  }
}
