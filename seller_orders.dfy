/**
 * The seller's received-orders page: a 20-per-page list of order items, a
 * status filter, a detail panel whose status picker edits a copy of the
 * selected item, and a submit that asks the server to change that item's
 * status and, once it has, patches the matching row of the list.
 */
module SellerOrders {
  import opened Util
  import OI = OrderItemStatus

  const PageSize: nat := 20

  /** One received order item; only the fields the page's logic touches are named. */
  datatype ReceivedOrder = ReceivedOrder(
    orderItemId: int,
    orderItemStatus: string,
    productName: string,
    productQuantity: int)

  /** The result of the remote status update. */
  datatype UpdateOutcome = Updated | Failed(message: string)

  /** The arguments of the received-orders query: zero-based page, size, status or null. */
  datatype OrdersQuery = OrdersQuery(page: int, size: nat, status: Option<string>)

  /** The query issued for a page and a filter; the filter 'all' is sent as no status. */
  function QueryFor(page: int, statusFilter: string): (q: OrdersQuery)
    ensures q.page == page - 1 && q.size == PageSize
    ensures q.status.None? <==> statusFilter == "all"
    ensures q.status.Some? ==> q.status.value == statusFilter
  {
    OrdersQuery(page - 1, PageSize, if statusFilter == "all" then None else Some(statusFilter))
  }

  /** `Math.ceil(total / 20)`: the number of page links. */
  function PageCount(total: nat): (n: nat)
    ensures n == 0 <==> total == 0
    ensures (n - 1) * PageSize < total <= n * PageSize || total == 0
  {
    CeilDiv(total, PageSize)
  }

  /** First row number shown on a page. */
  function RangeStart(page: int): int
  {
    (page - 1) * PageSize + 1
  }

  /** Last row number shown on a page: `Math.min(page * 20, total)`. */
  function RangeEnd(page: int, total: nat): int
  {
    if page * PageSize < total then page * PageSize else total
  }

  /** On every page that has a link, the "x-y of total" text names a non-empty window of at most 20 rows inside 1..total. */
  lemma {:induction false} RangeWithinTotal(page: int, total: nat)
    requires 1 <= page <= PageCount(total)
    ensures 1 <= RangeStart(page) <= RangeEnd(page, total) <= total
    ensures RangeEnd(page, total) - RangeStart(page) < PageSize
  {
    var n := PageCount(total);
    assert (n - 1) * PageSize < total;
    assert (page - 1) * PageSize <= (n - 1) * PageSize;
  }

  /** The page after "previous": `Math.max(prev - 1, 1)`. */
  function PrevPage(page: int): (r: int)
    ensures r >= 1
    ensures page > 1 ==> r == page - 1
    ensures page <= 2 ==> r == 1
  {
    if page - 1 > 1 then page - 1 else 1
  }

  /** The page after "next": `Math.min(prev + 1, Math.ceil(total / 20))`. */
  function NextPage(page: int, total: nat): (r: int)
    ensures r <= PageCount(total)
    ensures page < PageCount(total) ==> r == page + 1
    ensures page + 1 >= PageCount(total) ==> r == PageCount(total)
    ensures total == 0 && page >= -1 ==> r == 0
    ensures page >= 0 ==> r >= 0
  {
    if page + 1 < PageCount(total) then page + 1 else PageCount(total)
  }

  /** The page numbers on the links, `num + 1` for `num` in `0 .. ceil(total/20)`. */
  function PageLinks(total: nat): (r: seq<int>)
    ensures |r| == PageCount(total)
    ensures forall i :: 0 <= i < |r| ==> r[i] == i + 1
  {
    seq(PageCount(total), i => i + 1)
  }

  /** At most one link is marked active, and exactly one when the page is in range. */
  lemma ActiveLinkUnique(page: int, total: nat)
    ensures forall i, j :: 0 <= i < j < |PageLinks(total)| ==>
      !(PageLinks(total)[i] == page && PageLinks(total)[j] == page)
    ensures 1 <= page <= PageCount(total) ==> PageLinks(total)[page - 1] == page
  {
  }

  /** The list after a confirmed update: only rows with the matching id take the new status. */
  function ApplyStatus(rows: seq<ReceivedOrder>, id: int, status: string): (r: seq<ReceivedOrder>)
    ensures |r| == |rows|
    ensures forall i :: 0 <= i < |rows| && rows[i].orderItemId == id ==>
      r[i].orderItemStatus == status && r[i].(orderItemStatus := rows[i].orderItemStatus) == rows[i]
    ensures forall i :: 0 <= i < |rows| && rows[i].orderItemId != id ==> r[i] == rows[i]
  {
    seq(|rows|, i requires 0 <= i < |rows| =>
      if rows[i].orderItemId == id then rows[i].(orderItemStatus := status) else rows[i])
  }

  /** Applying the same update twice is the same as applying it once. */
  lemma ApplyStatusIdempotent(rows: seq<ReceivedOrder>, id: int, status: string)
    ensures ApplyStatus(ApplyStatus(rows, id, status), id, status) == ApplyStatus(rows, id, status)
  {
  }

  /** Every value the status picker lists, in order. */
  const PickerOptions: seq<string> := [
    "ORDERED", "PAID", "REJECTED", "ACCEPTED", "SHIPPING", "SHIPPED", "CONFIRMED",
    "CANCEL_PENDING", "CANCELED", "CANCEL_REJECTED", "RETURN_PENDING", "RETURNED", "RETURN_REJECTED"
  ]

  /** The options rendered `disabled`. */
  const DisabledOptions: seq<string> := ["ORDERED", "CONFIRMED", "CANCEL_PENDING"]

  /** The picker accepts a choice only when it is enabled (the item is not CONFIRMED) and the option is not disabled. */
  predicate PickerAllows(current: string, target: string)
  {
    current != "CONFIRMED" && target in PickerOptions && target !in DisabledOptions
  }

  /** ORDERED, CONFIRMED and CANCEL_PENDING are never reachable targets, and a CONFIRMED item is locked. */
  lemma PickerForbids(current: string, target: string)
    ensures (target == "ORDERED" || target == "CONFIRMED" || target == "CANCEL_PENDING") ==> !PickerAllows(current, target)
    ensures current == "CONFIRMED" ==> !PickerAllows(current, target)
    ensures PickerAllows(current, target) ==> target == "SHIPPING" || OI.Parse(target).Some?
  {
    if PickerAllows(current, target) && target != "SHIPPING" {
      var i :| 0 <= i < |PickerOptions| && PickerOptions[i] == target;
      var s := [OI.ORDERED, OI.PAID, OI.REJECTED, OI.ACCEPTED, OI.SHIPPED, OI.SHIPPED, OI.CONFIRMED,
                OI.CANCEL_PENDING, OI.CANCELED, OI.CANCEL_REJECTED, OI.RETURN_PENDING, OI.RETURNED, OI.RETURN_REJECTED];
      assert i != 4;
      assert OI.Name(s[i]) == target;
      OI.NameRoundTrip(s[i]);
    }
  }

  class SellerOrdersPage {
    var orderData: seq<ReceivedOrder>
    var statusFilter: string
    var totalOrderCount: nat
    var selectedOrder: Option<ReceivedOrder>
    var page: int
    /** The remote status updates issued so far, as (orderItemId, status). */
    var updateRequests: seq<(int, string)>

    /** The page never goes below 0 (it reaches 0 only through "next" on an empty list). */
    predicate Valid()
      reads this
    {
      page >= 0
    }

    constructor()
      ensures Valid()
      ensures orderData == [] && statusFilter == "all" && totalOrderCount == 0
      ensures selectedOrder == None && page == 1 && updateRequests == []
    {
      orderData := [];
      statusFilter := "all";
      totalOrderCount := 0;
      selectedOrder := None;
      page := 1;
      updateRequests := [];
    }

    /** The effect that copies a fetched page into state; nothing happens while no data has arrived. */
    method LoadReceived(fetched: Option<(seq<ReceivedOrder>, nat)>)
      requires Valid()
      modifies this
      ensures Valid()
      ensures fetched.None? ==> orderData == old(orderData) && totalOrderCount == old(totalOrderCount)
      ensures fetched.Some? ==> orderData == fetched.value.0 && totalOrderCount == fetched.value.1
      ensures page == old(page) && statusFilter == old(statusFilter)
      ensures selectedOrder == old(selectedOrder) && updateRequests == old(updateRequests)
    {
      if fetched.Some? {
        totalOrderCount := fetched.value.1;
        orderData := fetched.value.0;
      }
    }

    method SetStatusFilter(value: string)
      requires Valid()
      modifies this
      ensures Valid()
      ensures statusFilter == value
      ensures orderData == old(orderData) && page == old(page) && totalOrderCount == old(totalOrderCount)
      ensures selectedOrder == old(selectedOrder) && updateRequests == old(updateRequests)
    {
      statusFilter := value;
    }

    /** Clicking a row opens its details; the panel edits a copy. */
    method SelectRow(o: ReceivedOrder)
      requires Valid()
      modifies this
      ensures Valid()
      ensures selectedOrder == Some(o)
      ensures orderData == old(orderData) && page == old(page) && statusFilter == old(statusFilter)
      ensures totalOrderCount == old(totalOrderCount) && updateRequests == old(updateRequests)
    {
      selectedOrder := Some(o);
    }

    /** A choice in the status picker; disabled options and a locked picker deliver nothing. */
    method PickStatus(value: string)
      requires Valid()
      modifies this
      ensures Valid()
      ensures old(selectedOrder).Some? && PickerAllows(old(selectedOrder).value.orderItemStatus, value) ==>
        selectedOrder == Some(old(selectedOrder).value.(orderItemStatus := value))
      ensures !(old(selectedOrder).Some? && PickerAllows(old(selectedOrder).value.orderItemStatus, value)) ==>
        selectedOrder == old(selectedOrder)
      ensures orderData == old(orderData) && page == old(page) && statusFilter == old(statusFilter)
      ensures totalOrderCount == old(totalOrderCount) && updateRequests == old(updateRequests)
    {
      if selectedOrder.Some? && PickerAllows(selectedOrder.value.orderItemStatus, value) {
        selectedOrder := Some(selectedOrder.value.(orderItemStatus := value));
      }
    }

    /**
     * `handleShippingSubmit`: with no selection it returns at once; otherwise it
     * sends the update and patches the list only after the server accepts it.
     */
    method HandleShippingSubmit(outcome: UpdateOutcome)
      requires Valid()
      modifies this
      ensures Valid()
      ensures old(selectedOrder).None? ==> orderData == old(orderData) && updateRequests == old(updateRequests)
      ensures old(selectedOrder).Some? ==>
        updateRequests == old(updateRequests) +
          [(old(selectedOrder).value.orderItemId, old(selectedOrder).value.orderItemStatus)]
      ensures old(selectedOrder).Some? && outcome.Updated? ==>
        orderData == ApplyStatus(old(orderData), old(selectedOrder).value.orderItemId,
                                 old(selectedOrder).value.orderItemStatus)
      ensures outcome.Failed? ==> orderData == old(orderData)
      ensures selectedOrder == old(selectedOrder) && page == old(page)
      ensures statusFilter == old(statusFilter) && totalOrderCount == old(totalOrderCount)
    {
      if selectedOrder.None? {
        return;
      }
      var id := selectedOrder.value.orderItemId;
      var status := selectedOrder.value.orderItemStatus;
      updateRequests := updateRequests + [(id, status)];
      match outcome
      case Updated =>
        orderData := ApplyStatus(orderData, id, status);
      case Failed(_) =>
    }

    method Prev()
      requires Valid()
      modifies this
      ensures Valid()
      ensures page == PrevPage(old(page))
      ensures orderData == old(orderData) && statusFilter == old(statusFilter) && selectedOrder == old(selectedOrder)
      ensures totalOrderCount == old(totalOrderCount) && updateRequests == old(updateRequests)
    {
      page := PrevPage(page);
    }

    method Next()
      requires Valid()
      modifies this
      ensures Valid()
      ensures page == NextPage(old(page), totalOrderCount)
      ensures orderData == old(orderData) && statusFilter == old(statusFilter) && selectedOrder == old(selectedOrder)
      ensures totalOrderCount == old(totalOrderCount) && updateRequests == old(updateRequests)
    {
      page := NextPage(page, totalOrderCount);
    }

    /** Clicking the link at position `num`; only the listed links exist. */
    method GoTo(num: nat)
      requires Valid()
      requires num < |PageLinks(totalOrderCount)|
      modifies this
      ensures Valid()
      ensures totalOrderCount == old(totalOrderCount) && updateRequests == old(updateRequests)
      ensures page == num + 1 && page == PageLinks(totalOrderCount)[num]
      ensures orderData == old(orderData) && statusFilter == old(statusFilter) && selectedOrder == old(selectedOrder)
    {
      page := num + 1;
    }
  }
}
