/**
 * `OrderStatusBadge`: the `statusVariant` table of badge variants for order
 * statuses, with `'secondary'` for any status the table lacks, and the badge
 * text, which is the raw status itself.
 */
module OrderStatusBadge {
  import opened Util
  import opened OrderStatusMapping

  /** The `statusVariant` object: a lookup that may miss. */
  function VariantEntry(raw: string): (r: Option<string>)
  {
    match ParseOrderStatus(raw)
    case Some(PENDING) => Some("secondary")
    case Some(PAID) => Some("default")
    case Some(ACCEPTED) => Some("warning")
    case Some(SHIPPED) => Some("outline")
    case Some(DELIVERED) => Some("success")
    case Some(CANCELLED) => Some("destructive")
    case Some(REJECTED) => None
    case None => None
  }

  /** `statusVariant[status] || 'secondary'`. */
  function Variant(raw: string): (r: string)
    ensures VariantEntry(raw).None? ==> r == "secondary"
    ensures VariantEntry(raw).Some? ==> r == VariantEntry(raw).value
  {
    match VariantEntry(raw)
    case Some(v) => if v != "" then v else "secondary"
    case None => "secondary"
  }

  /** The badge shows the status string exactly as it came in. */
  function BadgeText(raw: string): (r: string)
    ensures |r| == |raw| && forall i :: 0 <= i < |raw| ==> r[i] == raw[i]
  {
    raw
  }

  /** The table has an entry for exactly six order statuses; REJECTED is not one of them. */
  lemma VariantEntriesExactly(raw: string)
    ensures VariantEntry(raw).Some? <==>
      raw in ["PENDING", "PAID", "ACCEPTED", "SHIPPED", "DELIVERED", "CANCELLED"]
  {
    if raw in ["PENDING", "PAID", "ACCEPTED", "SHIPPED", "DELIVERED", "CANCELLED"] {
      var s :| s in [OrderStatus.PENDING, PAID, ACCEPTED, SHIPPED, DELIVERED, CANCELLED]
             && OrderStatusName(s) == raw;
      OrderStatusRoundTrip(s);
    } else if ParseOrderStatus(raw).Some? {
      assert OrderStatusName(ParseOrderStatus(raw).value) == raw;
    }
  }

  /** A status without an entry, REJECTED included, looks like PENDING. */
  lemma MissingLooksPending(raw: string)
    requires VariantEntry(raw).None?
    ensures Variant(raw) == Variant("PENDING") == "secondary"
    ensures VariantEntry("REJECTED").None?
  {
    OrderStatusRoundTrip(OrderStatus.PENDING);
    OrderStatusRoundTrip(OrderStatus.REJECTED);
  }
}
