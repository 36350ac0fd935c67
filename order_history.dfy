/**
 * The buyer's order history: all orders are fetched once, then filtered by
 * status and keyword, sorted, and cut into pages of five. A summary row counts
 * the unfiltered orders per status.
 */
module OrderHistory {
  import opened Util
  import OrderPagination

  const ItemsPerPage: nat := 5

  datatype OrderLine = OrderLine(productName: string, productPrice: int, productQuantity: int)

  /** An order of the history; `createdAt` is a timestamp standing for the date string. */
  datatype Order = Order(
    orderId: string,
    receiverName: string,
    orderStatus: string,
    createdAt: int,
    totalPrice: int,
    orderItems: seq<OrderLine>)

  /** The status filter: 'ALL' keeps everything, anything else needs an exact match. */
  predicate MatchesStatus(statusFilter: string, o: Order)
  {
    statusFilter == "ALL" || o.orderStatus == statusFilter
  }

  /** Some item's product name contains the keyword. */
  predicate SomeItemNamed(items: seq<OrderLine>, keyword: string)
  {
    exists i :: 0 <= i < |items| && Includes(items[i].productName, keyword)
  }

  /** The keyword filter: an empty keyword keeps everything. */
  predicate MatchesKeyword(keyword: string, o: Order)
  {
    keyword == "" ||
    Includes(o.orderId, keyword) || Includes(o.receiverName, keyword) ||
    SomeItemNamed(o.orderItems, keyword)
  }

  /** `filteredOrders`: the status filter, then the keyword filter. */
  function FilterOrders(orders: seq<Order>, statusFilter: string, keyword: string): (r: seq<Order>)
    ensures |r| <= |orders|
    ensures IsSubseq(r, orders)
    ensures forall o :: o in r <==> o in orders && MatchesStatus(statusFilter, o) && MatchesKeyword(keyword, o)
  {
    var byStatus := (o: Order) => MatchesStatus(statusFilter, o);
    var byKeyword := (o: Order) => MatchesKeyword(keyword, o);
    var r := Filter(Filter(orders, byStatus), byKeyword);
    FilterIsSubseq(orders, byStatus);
    FilterIsSubseq(Filter(orders, byStatus), byKeyword);
    SubseqTrans(r, Filter(orders, byStatus), orders);
    forall o ensures o in r <==> o in orders && MatchesStatus(statusFilter, o) && MatchesKeyword(keyword, o) {
      FilterMembership(Filter(orders, byStatus), byKeyword, o);
      FilterMembership(orders, byStatus, o);
    }
    r
  }

  /** 'ALL' with an empty keyword shows every order, in the original order. */
  lemma NoFilterKeepsAll(orders: seq<Order>)
    ensures FilterOrders(orders, "ALL", "") == orders
  {
    FilterKeepsAll(orders, o => MatchesStatus("ALL", o));
    FilterKeepsAll(orders, o => MatchesKeyword("", o));
  }

  /**
   * The sort key whose ascending order the comparator produces: the
   * comparator always has the form `key(a) - key(b)` (PRICE_HIGH and the
   * newest-first default compare `b` against `a`, i.e. negate the key).
   */
  function SortKey(sortType: string): Order -> int
  {
    if sortType == "OLDEST" then (o: Order) => o.createdAt
    else if sortType == "PRICE_HIGH" then (o: Order) => -o.totalPrice
    else if sortType == "PRICE_LOW" then (o: Order) => o.totalPrice
    else (o: Order) => -o.createdAt
  }

  /** `[...filtered].sort(comparator)`: a stable sort by the key, a permutation of its input. */
  function SortOrders(orders: seq<Order>, sortType: string): (r: seq<Order>)
    ensures |r| == |orders| && multiset(r) == multiset(orders)
    ensures SortedBy(r, SortKey(sortType))
  {
    SortByKeyCorrect(orders, SortKey(sortType));
    SortByKey(orders, SortKey(sortType))
  }

  /** The sort is stable: orders with the same key (equal dates, or equal totals) keep their fetched order. */
  lemma SortOrdersStable(orders: seq<Order>, sortType: string, p: Order -> bool, c: int)
    requires forall o :: p(o) == (SortKey(sortType)(o) == c)
    ensures Filter(SortOrders(orders, sortType), p) == Filter(orders, p)
  {
    SortByKeyStable(orders, SortKey(sortType), p, c);
  }

  /** The four orders the sort select offers, spelled out on the order fields. */
  lemma {:induction false} SortOrderMeaning(orders: seq<Order>, sortType: string)
    ensures var r := SortOrders(orders, sortType);
      forall i, j :: 0 <= i < j < |r| ==>
        (sortType == "OLDEST" ==> r[i].createdAt <= r[j].createdAt) &&
        (sortType == "PRICE_HIGH" ==> r[i].totalPrice >= r[j].totalPrice) &&
        (sortType == "PRICE_LOW" ==> r[i].totalPrice <= r[j].totalPrice) &&
        (sortType !in {"OLDEST", "PRICE_HIGH", "PRICE_LOW"} ==> r[i].createdAt >= r[j].createdAt)
  {
    var r := SortOrders(orders, sortType);
    var key := SortKey(sortType);
    forall i, j | 0 <= i < j < |r|
      ensures (sortType == "OLDEST" ==> r[i].createdAt <= r[j].createdAt) &&
        (sortType == "PRICE_HIGH" ==> r[i].totalPrice >= r[j].totalPrice) &&
        (sortType == "PRICE_LOW" ==> r[i].totalPrice <= r[j].totalPrice) &&
        (sortType !in {"OLDEST", "PRICE_HIGH", "PRICE_LOW"} ==> r[i].createdAt >= r[j].createdAt)
    {
      assert key(r[i]) <= key(r[j]);
    }
  }

  /** `Array.prototype.slice(start, end)`, including its reading of negative and overlong bounds. */
  function JsSlice<T>(s: seq<T>, start: int, end: int): (r: seq<T>)
    ensures |r| <= |s|
  {
    var from := if start < 0 then (if |s| + start < 0 then 0 else |s| + start)
                else if start > |s| then |s| else start;
    var to := if end < 0 then (if |s| + end < 0 then 0 else |s| + end)
              else if end > |s| then |s| else end;
    if to <= from then [] else s[from..to]
  }

  /** The orders shown on a page: `sorted.slice((page - 1) * 5, (page - 1) * 5 + 5)`. */
  function PageOrders(sorted: seq<Order>, page: int): (r: seq<Order>)
    ensures page >= 1 ==> |r| <= ItemsPerPage
    ensures page >= 1 && (page - 1) * ItemsPerPage <= |sorted| ==>
      r == sorted[(page - 1) * ItemsPerPage .. if page * ItemsPerPage < |sorted| then page * ItemsPerPage else |sorted|]
    ensures page >= 1 && (page - 1) * ItemsPerPage > |sorted| ==> r == []
  {
    var start := (page - 1) * ItemsPerPage;
    JsSlice(sorted, start, start + ItemsPerPage)
  }

  /** Every order lands on exactly one page: the one numbered by its position. */
  lemma {:induction false} EachOrderOnItsPage(sorted: seq<Order>, k: int)
    requires 0 <= k < |sorted|
    ensures var p := k / ItemsPerPage + 1;
      1 <= p <= TotalPages(|sorted|) && PageOrders(sorted, p)[k % ItemsPerPage] == sorted[k]
  {
    var p := k / ItemsPerPage + 1;
    assert (p - 1) * ItemsPerPage + k % ItemsPerPage == k;
    assert (p - 1) * ItemsPerPage <= k < |sorted|;
    var n := TotalPages(|sorted|);
    assert (n - 1) * ItemsPerPage < |sorted| <= n * ItemsPerPage;
    assert k < n * ItemsPerPage;
  }

  /** `Math.ceil(sorted.length / 5)`. */
  function TotalPages(count: nat): (n: nat)
    ensures n == 0 <==> count == 0
    ensures (n - 1) * ItemsPerPage < count <= n * ItemsPerPage || count == 0
  {
    CeilDiv(count, ItemsPerPage)
  }

  /** The keys of the summary row, left to right. */
  const SummaryKeys: seq<string> := ["PENDING", "PAID", "ACCEPTED", "SHIPPED", "DELIVERED", "CANCELLED"]

  /** `orders.filter(o => o.orderStatus === key).length`, over the unfiltered orders. */
  function CountStatus(orders: seq<Order>, key: string): (n: nat)
    ensures n <= |orders|
  {
    |Filter(orders, (o: Order) => o.orderStatus == key)|
  }

  /** The summary row's numbers. */
  function SummaryTotal(orders: seq<Order>): nat
  {
    CountStatus(orders, "PENDING") + CountStatus(orders, "PAID") + CountStatus(orders, "ACCEPTED") +
    CountStatus(orders, "SHIPPED") + CountStatus(orders, "DELIVERED") + CountStatus(orders, "CANCELLED")
  }

  /** Each order has one status, so the six summary counts together never exceed the number of orders. */
  lemma {:induction false} SummaryBounded(orders: seq<Order>)
    ensures SummaryTotal(orders) <= |orders|
    decreases |orders|
  {
    if orders != [] {
      SummaryBounded(orders[1..]);
    }
  }

  /** The page's state. */
  class OrderHistoryPage {
    var orders: seq<Order>
    var loading: bool
    var error: Option<string>
    var currentPage: int
    var statusFilter: string
    var searchKeyword: string
    var sortType: string

    constructor()
      ensures orders == [] && loading && error == None && currentPage == 1
      ensures statusFilter == "ALL" && searchKeyword == "" && sortType == "LATEST"
    {
      orders := [];
      loading := true;
      error := None;
      currentPage := 1;
      statusFilter := "ALL";
      searchKeyword := "";
      sortType := "LATEST";
    }

    /** What the page lists: filtered, sorted, then the current page's slice. */
    function CurrentOrders(): (r: seq<Order>)
      reads this
      ensures currentPage >= 1 ==> |r| <= ItemsPerPage
      ensures forall o :: o in r ==> o in orders && MatchesStatus(statusFilter, o) && MatchesKeyword(searchKeyword, o)
    {
      var sorted := SortOrders(FilterOrders(orders, statusFilter, searchKeyword), sortType);
      var r := PageOrders(sorted, currentPage);
      assert forall o :: o in r ==> o in sorted by {
        forall o | o in r ensures o in sorted {
          var i :| 0 <= i < |r| && r[i] == o;
          assert multiset(sorted)[o] > 0 || o in sorted;
        }
      }
      assert forall o :: o in sorted ==> o in multiset(sorted);
      r
    }

    /** The pagination control under the list: one button per page of the filtered orders, the current one highlighted. */
    function Pagination(): (v: OrderPagination.PaginationView)
      reads this
      ensures |v.pages| == TotalPages(|FilterOrders(orders, statusFilter, searchKeyword)|)
      ensures v.next.disabled <==> currentPage == TotalPages(|FilterOrders(orders, statusFilter, searchKeyword)|)
      ensures v.prev.disabled <==> currentPage == 1
      ensures forall i :: 0 <= i < |v.pages| ==> (v.pages[i].variant == "default" <==> currentPage == i + 1)
    {
      OrderPagination.Render(currentPage, TotalPages(|FilterOrders(orders, statusFilter, searchKeyword)|))
    }

    /** `fetchOrders`: the answer replaces the orders, a failure sets the message; loading ends either way. */
    method LoadOrders(result: Option<seq<Order>>)
      modifies this
      ensures !loading
      ensures result.Some? ==> orders == result.value && error == old(error)
      ensures result.None? ==> orders == old(orders) && error == Some("주문 목록을 불러오지 못했습니다.")
      ensures currentPage == old(currentPage) && statusFilter == old(statusFilter)
      ensures searchKeyword == old(searchKeyword) && sortType == old(sortType)
    {
      if result.Some? {
        orders := result.value;
      } else {
        error := Some("주문 목록을 불러오지 못했습니다.");
      }
      loading := false;
    }

    /** A new status filter sends the buyer back to page 1. */
    method SetStatusFilter(value: string)
      modifies this
      ensures statusFilter == value && currentPage == 1
      ensures orders == old(orders) && loading == old(loading) && error == old(error)
      ensures searchKeyword == old(searchKeyword) && sortType == old(sortType)
    {
      statusFilter := value;
      currentPage := 1;
    }

    /** A new keyword sends the buyer back to page 1. */
    method SetSearchKeyword(value: string)
      modifies this
      ensures searchKeyword == value && currentPage == 1
      ensures orders == old(orders) && loading == old(loading) && error == old(error)
      ensures statusFilter == old(statusFilter) && sortType == old(sortType)
    {
      searchKeyword := value;
      currentPage := 1;
    }

    /** A new sort order keeps the current page number. */
    method SetSortType(value: string)
      modifies this
      ensures sortType == value && currentPage == old(currentPage)
      ensures orders == old(orders) && loading == old(loading) && error == old(error)
      ensures statusFilter == old(statusFilter) && searchKeyword == old(searchKeyword)
    {
      sortType := value;
    }

    /** `onPageChange`, whatever page the pagination asks for. */
    method SetPage(page: int)
      modifies this
      ensures currentPage == page
      ensures orders == old(orders) && loading == old(loading) && error == old(error)
      ensures statusFilter == old(statusFilter) && searchKeyword == old(searchKeyword) && sortType == old(sortType)
    {
      currentPage := page;
    }
  }
}
