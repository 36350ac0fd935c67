/**
 * The buyer-facing label and style lookups: `getOrderStatusLabel` for the
 * order as a whole, `getOrderItemStatusLabel` and `getOrderItemStatusStyle`
 * for a single order item. Each is a `switch` over the raw status string with
 * a `default` branch.
 */
module OrderStatusMapping {
  import opened Util
  import OI = OrderItemStatus

  /** The order-level statuses these lookups know (a different set from the item statuses). */
  datatype OrderStatus = PENDING | PAID | ACCEPTED | REJECTED | SHIPPED | DELIVERED | CANCELLED

  function OrderStatusName(s: OrderStatus): string
  {
    match s
    case PENDING => "PENDING"
    case PAID => "PAID"
    case ACCEPTED => "ACCEPTED"
    case REJECTED => "REJECTED"
    case SHIPPED => "SHIPPED"
    case DELIVERED => "DELIVERED"
    case CANCELLED => "CANCELLED"
  }

  /** Reads a raw order status; `None` outside the seven known ones. */
  function ParseOrderStatus(raw: string): (r: Option<OrderStatus>)
    ensures r.Some? ==> OrderStatusName(r.value) == raw
  {
    if raw == "PENDING" then Some(PENDING)
    else if raw == "PAID" then Some(PAID)
    else if raw == "ACCEPTED" then Some(ACCEPTED)
    else if raw == "REJECTED" then Some(REJECTED)
    else if raw == "SHIPPED" then Some(SHIPPED)
    else if raw == "DELIVERED" then Some(DELIVERED)
    else if raw == "CANCELLED" then Some(CANCELLED)
    else None
  }

  lemma {:induction false} OrderStatusRoundTrip(s: OrderStatus)
    ensures ParseOrderStatus(OrderStatusName(s)) == Some(s)
  {
    match s
    case PENDING => assert OrderStatusName(s) == "PENDING";
    case PAID => assert OrderStatusName(s) == "PAID";
    case ACCEPTED => assert OrderStatusName(s) == "ACCEPTED";
    case REJECTED => assert OrderStatusName(s) == "REJECTED";
    case SHIPPED => assert OrderStatusName(s) == "SHIPPED";
    case DELIVERED => assert OrderStatusName(s) == "DELIVERED";
    case CANCELLED => assert OrderStatusName(s) == "CANCELLED";
  }

  /** `getOrderStatusLabel`. */
  function OrderStatusLabel(raw: string): (r: string)
    ensures ParseOrderStatus(raw).None? ==> r == OI.UnknownLabel
  {
    match ParseOrderStatus(raw)
    case None => OI.UnknownLabel
    case Some(s) =>
      match s
      case PENDING => "결제 대기"
      case PAID => "결제 완료"
      case ACCEPTED => "주문 승인"
      case REJECTED => "주문 거절"
      case SHIPPED => "배송 중"
      case DELIVERED => "배송 완료"
      case CANCELLED => "주문 취소"
  }

  /** A known label exactly for the seven order statuses, '알 수 없음' for everything else. */
  lemma OrderStatusLabelKnownIff(raw: string)
    ensures OrderStatusLabel(raw) != OI.UnknownLabel <==> exists s: OrderStatus :: OrderStatusName(s) == raw
  {
    if exists s: OrderStatus :: OrderStatusName(s) == raw {
      var s: OrderStatus :| OrderStatusName(s) == raw;
      OrderStatusRoundTrip(s);
    }
  }

  /** `getOrderItemStatusLabel`. */
  function OrderItemStatusLabel(raw: string): (r: string)
    ensures OI.Parse(raw).None? ==> r == OI.UnknownLabel
    ensures OI.Parse(raw).Some? ==> r != OI.UnknownLabel
  {
    match OI.Parse(raw)
    case None => OI.UnknownLabel
    case Some(s) =>
      match s
      case ORDERED => "결제 대기"
      case PAID => "결제 완료"
      case ACCEPTED => "주문 접수됨"
      case REJECTED => "주문 거절됨"
      case SHIPPED => "배송 중"
      case CONFIRMED => "구매 확정"
      case CANCEL_PENDING => "취소 요청됨"
      case CANCELED => "취소됨"
      case CANCEL_REJECTED => "취소 거절됨"
      case RETURN_PENDING => "반품 요청됨"
      case RETURNED => "반품됨"
      case RETURN_REJECTED => "반품 거절됨"
  }

  /** The twelve item statuses get twelve pairwise-distinct labels. */
  lemma ItemLabelsDistinct(s: OI.ItemStatus, t: OI.ItemStatus)
    requires s != t
    ensures OrderItemStatusLabel(OI.Name(s)) != OrderItemStatusLabel(OI.Name(t))
  {
    OI.NameRoundTrip(s);
    OI.NameRoundTrip(t);
  }

  /** Order-level PENDING and item-level ORDERED read the same to the buyer. */
  lemma PendingMatchesOrdered()
    ensures OrderStatusLabel("PENDING") == OrderItemStatusLabel("ORDERED") == "결제 대기"
  {
    OrderStatusRoundTrip(PENDING);
    OI.NameRoundTrip(OI.ORDERED);
  }

  const GrayStyle := "bg-gray-100 text-gray-800"
  const RedStyle := "bg-red-100 text-red-800"
  const OrangeStyle := "bg-orange-100 text-orange-800"
  const PinkStyle := "bg-pink-100 text-pink-800"

  /** `getOrderItemStatusStyle`; the three fall-through pairs share one branch each. */
  function OrderItemStatusStyle(raw: string): (r: string)
    ensures OI.Parse(raw).None? <==> r == GrayStyle
  {
    match OI.Parse(raw)
    case None => GrayStyle
    case Some(s) =>
      match s
      case ORDERED => "bg-purple-100 text-purple-800"
      case PAID => "bg-blue-100 text-blue-800"
      case ACCEPTED => "bg-teal-100 text-teal-800"
      case REJECTED => RedStyle
      case SHIPPED => "bg-yellow-100 text-yellow-800"
      case CONFIRMED => "bg-green-100 text-green-800"
      case CANCEL_PENDING | RETURN_PENDING => OrangeStyle
      case CANCELED | RETURNED => RedStyle
      case CANCEL_REJECTED | RETURN_REJECTED => PinkStyle
  }

  /** The styles that the switch deliberately shares between statuses. */
  lemma SharedStyles()
    ensures OrderItemStatusStyle("CANCEL_PENDING") == OrderItemStatusStyle("RETURN_PENDING") == OrangeStyle
    ensures OrderItemStatusStyle("CANCELED") == OrderItemStatusStyle("RETURNED")
         == OrderItemStatusStyle("REJECTED") == RedStyle
    ensures OrderItemStatusStyle("CANCEL_REJECTED") == OrderItemStatusStyle("RETURN_REJECTED") == PinkStyle
  {
    OI.NameRoundTrip(OI.CANCEL_PENDING);
    OI.NameRoundTrip(OI.RETURN_PENDING);
    OI.NameRoundTrip(OI.CANCELED);
    OI.NameRoundTrip(OI.RETURNED);
    OI.NameRoundTrip(OI.REJECTED);
    OI.NameRoundTrip(OI.CANCEL_REJECTED);
    OI.NameRoundTrip(OI.RETURN_REJECTED);
  }
}
