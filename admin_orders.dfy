/**
 * The admin order-management screen. Every order row carries a draft order
 * status and draft item statuses next to the saved ones; "save" copies the
 * draft into the saved pair and "reset" copies the saved pair back into the
 * draft, always for one order id. Rows expand and collapse through the shared
 * row toggle.
 */
module AdminOrders {
  import opened RowToggle

  datatype OrderItem = OrderItem(orderItemId: string, orderItemStatus: string)

  /** An order as the screen receives it. */
  datatype Order = Order(orderId: string, orderStatus: string, orderItems: seq<OrderItem>)

  /** An order together with its draft and saved statuses. */
  datatype OrderRow = OrderRow(
    order: Order,
    orderStatusState: string,
    itemStatuses: map<string, string>,
    savedOrderStatus: string,
    savedItemStatuses: map<string, string>)

  /** `Object.fromEntries(items.map(i => [i.orderItemId, i.orderItemStatus]))`; a repeated id keeps its last status. */
  function ItemStatusMap(items: seq<OrderItem>): (m: map<string, string>)
    ensures forall i :: 0 <= i < |items| ==> items[i].orderItemId in m
    ensures forall k :: k in m ==>
      exists i :: 0 <= i < |items| && items[i].orderItemId == k && items[i].orderItemStatus == m[k]
    ensures |items| > 0 ==> m[items[|items| - 1].orderItemId] == items[|items| - 1].orderItemStatus
  {
    if items == [] then map[]
    else
      var init := items[..|items| - 1];
      var last := items[|items| - 1];
      var m := ItemStatusMap(init)[last.orderItemId := last.orderItemStatus];
      assert forall i :: 0 <= i < |init| ==> init[i] == items[i];
      assert forall k :: k in m && k != last.orderItemId ==> k in ItemStatusMap(init);
      m
  }

  /** No later item carries the id of item `i`: its status is the one `Object.fromEntries` keeps. */
  predicate LastWithId(items: seq<OrderItem>, i: int)
    requires 0 <= i < |items|
  {
    forall j :: i < j < |items| ==> items[j].orderItemId != items[i].orderItemId
  }

  /** Every repeated id keeps the status of its last item, as `Object.fromEntries` does, whichever id it is. */
  lemma {:induction false} ItemStatusMapLastWins(items: seq<OrderItem>, i: int)
    requires 0 <= i < |items| && LastWithId(items, i)
    ensures items[i].orderItemId in ItemStatusMap(items)
    ensures ItemStatusMap(items)[items[i].orderItemId] == items[i].orderItemStatus
    decreases |items|
  {
    var init := items[..|items| - 1];
    if i < |items| - 1 {
      assert items[|items| - 1].orderItemId != items[i].orderItemId;
      assert init[i] == items[i];
      assert LastWithId(init, i) by {
        forall j | i < j < |init| ensures init[j].orderItemId != init[i].orderItemId {
          assert init[j] == items[j];
        }
      }
      ItemStatusMapLastWins(init, i);
    }
  }

  /** The row an order starts as: draft and saved both hold the order's own statuses. */
  function InitialRow(order: Order): (r: OrderRow)
    ensures r.order == order
    ensures r.orderStatusState == order.orderStatus && r.savedOrderStatus == order.orderStatus
    ensures r.itemStatuses == r.savedItemStatuses
    ensures forall i :: 0 <= i < |order.orderItems| ==> order.orderItems[i].orderItemId in r.itemStatuses
  {
    var m := ItemStatusMap(order.orderItems);
    OrderRow(order, order.orderStatus, m, order.orderStatus, m)
  }

  /** The draft item statuses never drift from the saved ones: no handler edits them separately. */
  predicate ItemsSynced(r: OrderRow)
  {
    r.itemStatuses == r.savedItemStatuses
  }

  /** A row whose draft equals what is saved: nothing to save or reset. */
  predicate Clean(r: OrderRow)
  {
    r.orderStatusState == r.savedOrderStatus && r.itemStatuses == r.savedItemStatuses
  }

  /** A new draft order status on one row. */
  function ChangeDraft(r: OrderRow, newStatus: string): (s: OrderRow)
  {
    r.(orderStatusState := newStatus)
  }

  /** Saving one row: the saved pair takes the draft. */
  function SaveRow(r: OrderRow): (s: OrderRow)
  {
    r.(savedOrderStatus := r.orderStatusState, savedItemStatuses := r.itemStatuses)
  }

  /** Resetting one row: the draft takes the saved pair. */
  function ResetRow(r: OrderRow): (s: OrderRow)
  {
    r.(orderStatusState := r.savedOrderStatus, itemStatuses := r.savedItemStatuses)
  }

  /** What each handler does to one row. */
  datatype Edit = StatusChange(newStatus: string) | Save | Reset

  function EditRow(r: OrderRow, e: Edit): (s: OrderRow)
    ensures s.order == r.order
    ensures e.StatusChange? ==> s.orderStatusState == e.newStatus && s.savedOrderStatus == r.savedOrderStatus
    ensures e.StatusChange? ==> s.itemStatuses == r.itemStatuses && s.savedItemStatuses == r.savedItemStatuses
    ensures e.Save? ==> s.savedOrderStatus == r.orderStatusState && s.orderStatusState == r.orderStatusState
    ensures e.Save? ==> s.savedItemStatuses == r.itemStatuses && s.itemStatuses == r.itemStatuses
    ensures e.Reset? ==> s.orderStatusState == r.savedOrderStatus && s.savedOrderStatus == r.savedOrderStatus
    ensures e.Reset? ==> s.itemStatuses == r.savedItemStatuses && s.savedItemStatuses == r.savedItemStatuses
    ensures e.Save? || e.Reset? ==> Clean(s)
    ensures ItemsSynced(r) ==> ItemsSynced(s)
  {
    match e
    case StatusChange(status) => ChangeDraft(r, status)
    case Save => SaveRow(r)
    case Reset => ResetRow(r)
  }

  /** `prev.map(order => order.orderId === orderId ? edited : order)`. */
  function EditRows(rows: seq<OrderRow>, orderId: string, e: Edit): (r: seq<OrderRow>)
    ensures |r| == |rows|
    ensures forall i :: 0 <= i < |rows| && rows[i].order.orderId == orderId ==> r[i] == EditRow(rows[i], e)
    ensures forall i :: 0 <= i < |rows| && rows[i].order.orderId != orderId ==> r[i] == rows[i]
  {
    seq(|rows|, i requires 0 <= i < |rows| => if rows[i].order.orderId == orderId then EditRow(rows[i], e) else rows[i])
  }

  /** Every row of a list keeps its item statuses in step. */
  ghost predicate AllSynced(rows: seq<OrderRow>)
  {
    forall i :: 0 <= i < |rows| ==> ItemsSynced(rows[i])
  }

  /** The rows start clean, so in particular in step. */
  lemma InitialRowsClean(orders: seq<Order>)
    ensures forall i :: 0 <= i < |orders| ==> Clean(InitialRow(orders[i]))
    ensures AllSynced(seq(|orders|, i requires 0 <= i < |orders| => InitialRow(orders[i])))
  {
  }

  /** Every handler keeps the item statuses in step. */
  lemma EditKeepsSynced(rows: seq<OrderRow>, orderId: string, e: Edit)
    requires AllSynced(rows)
    ensures AllSynced(EditRows(rows, orderId, e))
  {
    var r := EditRows(rows, orderId, e);
    forall i | 0 <= i < |r|
      ensures ItemsSynced(r[i])
    {
      assert ItemsSynced(rows[i]);
    }
  }

  /** Reset straight after save changes nothing. */
  lemma {:induction false} ResetAfterSave(rows: seq<OrderRow>, orderId: string)
    ensures EditRows(EditRows(rows, orderId, Save), orderId, Reset) == EditRows(rows, orderId, Save)
  {
    var saved := EditRows(rows, orderId, Save);
    var reset := EditRows(saved, orderId, Reset);
    forall i | 0 <= i < |rows|
      ensures reset[i] == saved[i]
    {
      if rows[i].order.orderId == orderId {
        assert Clean(saved[i]);
      }
    }
  }

  /** Saving twice is saving once; resetting twice is resetting once. */
  lemma {:induction false} SaveResetIdempotent(rows: seq<OrderRow>, orderId: string)
    ensures EditRows(EditRows(rows, orderId, Save), orderId, Save) == EditRows(rows, orderId, Save)
    ensures EditRows(EditRows(rows, orderId, Reset), orderId, Reset) == EditRows(rows, orderId, Reset)
  {
    var s1 := EditRows(rows, orderId, Save);
    var s2 := EditRows(s1, orderId, Save);
    forall i | 0 <= i < |rows|
      ensures s2[i] == s1[i]
    {
      if rows[i].order.orderId == orderId {
        assert Clean(s1[i]);
      }
    }
    var r1 := EditRows(rows, orderId, Reset);
    var r2 := EditRows(r1, orderId, Reset);
    forall i | 0 <= i < |rows|
      ensures r2[i] == r1[i]
    {
      if rows[i].order.orderId == orderId {
        assert Clean(r1[i]);
      }
    }
  }

  /** A draft change followed by reset leaves the row as a plain reset would. */
  lemma ResetUndoesChange(r: OrderRow, newStatus: string)
    ensures EditRow(EditRow(r, StatusChange(newStatus)), Reset) == EditRow(r, Reset)
    ensures Clean(r) ==> EditRow(EditRow(r, StatusChange(newStatus)), Reset) == r
  {
  }

  const SavedAlert := "변경사항이 저장되었습니다."

  class AdminOrdersPage {
    var ordersState: seq<OrderRow>
    var expandedRows: seq<string>
    /** The `alert` messages shown, oldest first. */
    var alerts: seq<string>

    ghost predicate Valid()
      reads this
    {
      AllSynced(ordersState)
    }

    constructor(orders: seq<Order>)
      ensures ordersState == seq(|orders|, i requires 0 <= i < |orders| => InitialRow(orders[i]))
      ensures expandedRows == [] && alerts == []
      ensures Valid()
    {
      ordersState := seq(|orders|, i requires 0 <= i < |orders| => InitialRow(orders[i]));
      expandedRows := [];
      alerts := [];
      InitialRowsClean(orders);
    }

    method ToggleRow(orderId: string)
      modifies this
      ensures expandedRows == Toggled(old(expandedRows), orderId)
      ensures ordersState == old(ordersState) && alerts == old(alerts)
    {
      expandedRows := Toggled(expandedRows, orderId);
    }

    method ChangeOrderStatus(orderId: string, newStatus: string)
      modifies this
      ensures ordersState == EditRows(old(ordersState), orderId, StatusChange(newStatus))
      ensures expandedRows == old(expandedRows) && alerts == old(alerts)
      ensures old(Valid()) ==> Valid()
    {
      if Valid() {
        EditKeepsSynced(ordersState, orderId, StatusChange(newStatus));
      }
      ordersState := EditRows(ordersState, orderId, StatusChange(newStatus));
    }

    /** Saves the matching order and then always shows the saved alert. */
    method Save(orderId: string)
      modifies this
      ensures ordersState == EditRows(old(ordersState), orderId, Edit.Save)
      ensures alerts == old(alerts) + [SavedAlert]
      ensures expandedRows == old(expandedRows)
      ensures old(Valid()) ==> Valid()
    {
      if Valid() {
        EditKeepsSynced(ordersState, orderId, Edit.Save);
      }
      ordersState := EditRows(ordersState, orderId, Edit.Save);
      alerts := alerts + [SavedAlert];
    }

    method Reset(orderId: string)
      modifies this
      ensures ordersState == EditRows(old(ordersState), orderId, Edit.Reset)
      ensures expandedRows == old(expandedRows) && alerts == old(alerts)
      ensures old(Valid()) ==> Valid()
    {
      if Valid() {
        EditKeepsSynced(ordersState, orderId, Edit.Reset);
      }
      ordersState := EditRows(ordersState, orderId, Edit.Reset);
    }
  }
}
