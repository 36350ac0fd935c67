/**
 * The order-item status taxonomy (`ORDER_ITEM_STATUS`) and the badge lookup
 * `statusLabel` that the seller screens draw from it. Statuses travel between
 * client and server as strings; `Parse` is the only way a raw string becomes
 * one of the twelve, and everything else is "unknown".
 */
module OrderItemStatus {
  import opened Util

  datatype ItemStatus =
    | ORDERED | PAID | REJECTED | ACCEPTED | SHIPPED | CONFIRMED
    | CANCEL_PENDING | CANCELED | CANCEL_REJECTED
    | RETURN_PENDING | RETURNED | RETURN_REJECTED

  /** The twelve keys of `ORDER_ITEM_STATUS`, in declaration order. */
  const AllStatuses: seq<ItemStatus> := [
    ORDERED, PAID, REJECTED, ACCEPTED, SHIPPED, CONFIRMED,
    CANCEL_PENDING, CANCELED, CANCEL_REJECTED,
    RETURN_PENDING, RETURNED, RETURN_REJECTED
  ]

  /** The string each key maps to: in this enum every key maps to its own name. */
  function Name(s: ItemStatus): string
  {
    match s
    case ORDERED => "ORDERED"
    case PAID => "PAID"
    case REJECTED => "REJECTED"
    case ACCEPTED => "ACCEPTED"
    case SHIPPED => "SHIPPED"
    case CONFIRMED => "CONFIRMED"
    case CANCEL_PENDING => "CANCEL_PENDING"
    case CANCELED => "CANCELED"
    case CANCEL_REJECTED => "CANCEL_REJECTED"
    case RETURN_PENDING => "RETURN_PENDING"
    case RETURNED => "RETURNED"
    case RETURN_REJECTED => "RETURN_REJECTED"
  }

  /** Reads a raw status string; `None` for anything outside the twelve. */
  function Parse(raw: string): (r: Option<ItemStatus>)
    ensures r.Some? ==> Name(r.value) == raw
  {
    if raw == "ORDERED" then Some(ORDERED)
    else if raw == "PAID" then Some(PAID)
    else if raw == "REJECTED" then Some(REJECTED)
    else if raw == "ACCEPTED" then Some(ACCEPTED)
    else if raw == "SHIPPED" then Some(SHIPPED)
    else if raw == "CONFIRMED" then Some(CONFIRMED)
    else if raw == "CANCEL_PENDING" then Some(CANCEL_PENDING)
    else if raw == "CANCELED" then Some(CANCELED)
    else if raw == "CANCEL_REJECTED" then Some(CANCEL_REJECTED)
    else if raw == "RETURN_PENDING" then Some(RETURN_PENDING)
    else if raw == "RETURNED" then Some(RETURNED)
    else if raw == "RETURN_REJECTED" then Some(RETURN_REJECTED)
    else None
  }

  /** The enum has exactly twelve distinct keys, and every status is one of them. */
  lemma EnumHasTwelveKeys()
    ensures |AllStatuses| == 12
    ensures forall i, j :: 0 <= i < j < 12 ==> AllStatuses[i] != AllStatuses[j]
    ensures forall s: ItemStatus :: s in AllStatuses
  {
    forall s: ItemStatus ensures s in AllStatuses {
      match s
      case ORDERED => assert AllStatuses[0] == s;
      case PAID => assert AllStatuses[1] == s;
      case REJECTED => assert AllStatuses[2] == s;
      case ACCEPTED => assert AllStatuses[3] == s;
      case SHIPPED => assert AllStatuses[4] == s;
      case CONFIRMED => assert AllStatuses[5] == s;
      case CANCEL_PENDING => assert AllStatuses[6] == s;
      case CANCELED => assert AllStatuses[7] == s;
      case CANCEL_REJECTED => assert AllStatuses[8] == s;
      case RETURN_PENDING => assert AllStatuses[9] == s;
      case RETURNED => assert AllStatuses[10] == s;
      case RETURN_REJECTED => assert AllStatuses[11] == s;
    }
  }

  /** Each key maps to the identical string, and reading that string back yields the key. */
  lemma {:induction false} NameRoundTrip(s: ItemStatus)
    ensures Parse(Name(s)) == Some(s)
  {
    match s
    case ORDERED => assert Name(s) == "ORDERED";
    case PAID => assert Name(s) == "PAID";
    case REJECTED => assert Name(s) == "REJECTED";
    case ACCEPTED => assert Name(s) == "ACCEPTED";
    case SHIPPED => assert Name(s) == "SHIPPED";
    case CONFIRMED => assert Name(s) == "CONFIRMED";
    case CANCEL_PENDING => assert Name(s) == "CANCEL_PENDING";
    case CANCELED => assert Name(s) == "CANCELED";
    case CANCEL_REJECTED => assert Name(s) == "CANCEL_REJECTED";
    case RETURN_PENDING => assert Name(s) == "RETURN_PENDING";
    case RETURNED => assert Name(s) == "RETURNED";
    case RETURN_REJECTED => assert Name(s) == "RETURN_REJECTED";
  }

  /** A raw string is known exactly when it is the name of one of the twelve. */
  lemma ParseKnownIff(raw: string)
    ensures Parse(raw).Some? <==> exists s: ItemStatus :: Name(s) == raw
  {
    if exists s: ItemStatus :: Name(s) == raw {
      var s: ItemStatus :| Name(s) == raw;
      NameRoundTrip(s);
    }
  }

  /** A badge: Tailwind class and Korean label. */
  datatype Badge = Badge(className: string, text: string)

  const UnknownLabel := "알 수 없음"
  const UnknownBadge := Badge("bg-neutral-500", UnknownLabel)

  /** The badge of a known status. */
  function KnownBadge(s: ItemStatus): Badge
  {
    match s
    case ORDERED => Badge("bg-violet-500", "결제 대기 중")
    case PAID => Badge("bg-blue-500", "결제 완료")
    case REJECTED => Badge("bg-red-500", "주문 거절")
    case ACCEPTED => Badge("bg-purple-500", "주문 승인")
    case SHIPPED => Badge("bg-yellow-500", "배송 중")
    case CONFIRMED => Badge("bg-green-700", "배송 완료")
    case CANCEL_PENDING => Badge("bg-yellow-700", "취소 요청 중")
    case CANCELED => Badge("bg-red-500", "주문 취소")
    case CANCEL_REJECTED => Badge("bg-red-700", "취소 거절")
    case RETURN_PENDING => Badge("bg-yellow-500", "반품 요청 중")
    case RETURNED => Badge("bg-orange-500", "반품 완료")
    case RETURN_REJECTED => Badge("bg-red-700", "반품 거절")
  }

  /** `statusLabel`: total over all strings; anything unknown gets the neutral badge. */
  function StatusLabel(raw: string): (b: Badge)
    ensures Parse(raw).None? ==> b == UnknownBadge
    ensures Parse(raw).Some? ==> b.text != UnknownLabel && b.className != "bg-neutral-500"
  {
    match Parse(raw)
    case None => UnknownBadge
    case Some(s) => KnownBadge(s)
  }

  /** No two of the twelve statuses share a label. */
  lemma LabelsDistinct(s: ItemStatus, t: ItemStatus)
    requires s != t
    ensures StatusLabel(Name(s)).text != StatusLabel(Name(t)).text
  {
    NameRoundTrip(s);
    NameRoundTrip(t);
  }

  /** The colour classes that are deliberately shared between statuses. */
  lemma SharedColours()
    ensures StatusLabel("REJECTED").className == StatusLabel("CANCELED").className == "bg-red-500"
    ensures StatusLabel("CANCEL_REJECTED").className == StatusLabel("RETURN_REJECTED").className == "bg-red-700"
    ensures StatusLabel("SHIPPED").className == StatusLabel("RETURN_PENDING").className == "bg-yellow-500"
    ensures StatusLabel("CONFIRMED").text == "배송 완료"
  {
    NameRoundTrip(REJECTED);
    NameRoundTrip(CANCELED);
    NameRoundTrip(CANCEL_REJECTED);
    NameRoundTrip(RETURN_REJECTED);
    NameRoundTrip(SHIPPED);
    NameRoundTrip(RETURN_PENDING);
    NameRoundTrip(CONFIRMED);
  }

  /** The seller screens offer 'SHIPPING', which is not a status and so shows as unknown. */
  lemma ShippingIsUnknown()
    ensures Parse("SHIPPING").None?
    ensures StatusLabel("SHIPPING") == UnknownBadge
  {
    ParseKnownIff("SHIPPING");
  }
}
