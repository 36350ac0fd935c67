/**
 * The payment-return page. The payment provider redirects here with search
 * parameters; the page verifies the payment once, deleting the bought cart
 * items on the server, then clears the stored checkout ids, refreshes the cart
 * count and replaces the location with the completion page. Any failure
 * replaces the location with the cart.
 */
module PaymentProcess {
  import opened Util

  /** JavaScript truthiness of an optional string: present and non-empty. */
  predicate Truthy(v: Option<string>)
  {
    v.Some? && v.value != ""
  }

  /** The raw search parameters the provider sends back. */
  datatype RawSearch = RawSearch(
    orderId: Option<string>,
    merchantUid: Option<string>,
    amount: Option<string>,
    paymentKey: Option<string>,
    impUid: Option<string>,
    code: Option<string>,
    message: Option<string>)

  /** `validateSearch`'s order id: `orderId || merchant_uid`. */
  function OrderIdFrom(search: RawSearch): (r: Option<string>)
    ensures Truthy(search.orderId) ==> r == search.orderId
    ensures !Truthy(search.orderId) ==> r == search.merchantUid
    ensures Truthy(r) <==> Truthy(search.orderId) || Truthy(search.merchantUid)
  {
    if Truthy(search.orderId) then search.orderId else search.merchantUid
  }

  /** The session-storage entry 'checkout_cart_items', as far as `JSON.parse` is concerned. */
  datatype StoredIds = Absent | EmptyText | Ids(ids: seq<int>) | Unparsable

  /** `JSON.parse(getItem(...) || '[]')`: absent and empty both read as `[]`; unparsable text throws. */
  function ParseStoredIds(stored: StoredIds): (r: Option<seq<int>>)
    ensures r.None? <==> stored.Unparsable?
    ensures stored.Absent? || stored.EmptyText? ==> r == Some([])
    ensures stored.Ids? ==> r == Some(stored.ids)
  {
    match stored
    case Absent => Some([])
    case EmptyText => Some([])
    case Ids(ids) => Some(ids)
    case Unparsable => None
  }

  /** The body of `verifyPayment`; `amount` is passed on raw (the `Number` conversion is not modelled). */
  datatype VerifyRequest = VerifyRequest(
    orderId: string,
    amount: Option<string>,
    paymentMethod: string,
    paymentKey: Option<string>,
    impUid: Option<string>,
    cartItemIdsToDelete: seq<int>)

  /** `paymentKey ? 'TOSS' : 'PORTONE'`. */
  function PaymentMethod(paymentKey: Option<string>): (m: string)
    ensures m == "TOSS" <==> Truthy(paymentKey)
    ensures m == "PORTONE" <==> !Truthy(paymentKey)
  {
    if Truthy(paymentKey) then "TOSS" else "PORTONE"
  }

  /**
   * The verification request the handler reaches, or `None` when it aborts
   * first: on a provider error code, on a missing order id, or on stored ids
   * that do not parse.
   */
  function PlannedRequest(search: RawSearch, stored: StoredIds): (r: Option<VerifyRequest>)
    ensures r.None? <==> Truthy(search.code) || !Truthy(OrderIdFrom(search)) || stored.Unparsable?
    ensures r.Some? ==>
      Some(r.value.orderId) == OrderIdFrom(search) &&
      (r.value.paymentMethod == "TOSS" <==> Truthy(search.paymentKey)) &&
      Some(r.value.cartItemIdsToDelete) == ParseStoredIds(stored) &&
      r.value.amount == search.amount && r.value.paymentKey == search.paymentKey &&
      r.value.impUid == search.impUid
  {
    if Truthy(search.code) then None
    else
      var orderId := OrderIdFrom(search);
      if !Truthy(orderId) then None
      else match ParseStoredIds(stored)
        case None => None
        case Some(ids) =>
          Some(VerifyRequest(orderId.value, search.amount, PaymentMethod(search.paymentKey),
                             search.paymentKey, search.impUid, ids))
  }

  /** The verification call resolves or throws. */
  datatype VerifyOutcome = Verified | VerifyFailed

  /** A `navigate` call: path, `replace` flag, and the `orderId` search parameter. */
  datatype Navigation = Navigation(to: string, replace: bool, orderIdParam: Option<string>)

  class PaymentReturnPage {
    const search: RawSearch
    /** `processedRef.current`. */
    var processed: bool
    /** The session-storage entry holding the checked-out cart ids. */
    var stored: StoredIds
    var verifyRequests: seq<VerifyRequest>
    var cartCountRefreshes: nat
    var navigations: seq<Navigation>
    var errorToasts: nat

    constructor(s: RawSearch, session: StoredIds)
      ensures search == s && stored == session && !processed
      ensures verifyRequests == [] && cartCountRefreshes == 0 && navigations == [] && errorToasts == 0
    {
      search := s;
      stored := session;
      processed := false;
      verifyRequests := [];
      cartCountRefreshes := 0;
      navigations := [];
      errorToasts := 0;
    }

    /**
     * One run of the effect. A second run returns before doing anything. The
     * stored ids are removed, the cart count refreshed and the completion page
     * reached only after the verification succeeds.
     */
    method Run(outcome: VerifyOutcome)
      modifies this
      ensures processed
      ensures old(processed) ==>
        stored == old(stored) && verifyRequests == old(verifyRequests) &&
        cartCountRefreshes == old(cartCountRefreshes) && navigations == old(navigations) &&
        errorToasts == old(errorToasts)
      ensures !old(processed) && PlannedRequest(search, old(stored)).None? ==>
        verifyRequests == old(verifyRequests) && stored == old(stored) &&
        cartCountRefreshes == old(cartCountRefreshes) &&
        navigations == old(navigations) + [Navigation("/cart", true, None)] &&
        errorToasts == old(errorToasts) + 1
      ensures !old(processed) && PlannedRequest(search, old(stored)).Some? ==>
        verifyRequests == old(verifyRequests) + [PlannedRequest(search, old(stored)).value]
      ensures !old(processed) && PlannedRequest(search, old(stored)).Some? && outcome.Verified? ==>
        stored == Absent && cartCountRefreshes == old(cartCountRefreshes) + 1 &&
        navigations == old(navigations) +
          [Navigation("/order/complete", true, Some(PlannedRequest(search, old(stored)).value.orderId))] &&
        errorToasts == old(errorToasts)
      ensures !old(processed) && PlannedRequest(search, old(stored)).Some? && outcome.VerifyFailed? ==>
        stored == old(stored) && cartCountRefreshes == old(cartCountRefreshes) &&
        navigations == old(navigations) + [Navigation("/cart", true, None)] &&
        errorToasts == old(errorToasts) + 1
    {
      if processed {
        return;
      }
      processed := true;
      var request := PlannedRequest(search, stored);
      if request.None? {
        errorToasts := errorToasts + 1;
        navigations := navigations + [Navigation("/cart", true, None)];
        return;
      }
      verifyRequests := verifyRequests + [request.value];
      if outcome.VerifyFailed? {
        errorToasts := errorToasts + 1;
        navigations := navigations + [Navigation("/cart", true, None)];
        return;
      }
      stored := Absent;
      cartCountRefreshes := cartCountRefreshes + 1;
      navigations := navigations + [Navigation("/order/complete", true, Some(request.value.orderId))];
    }
  }

  /** A provider error code stops the handler before verification, whatever else was sent. */
  lemma ErrorCodeAborts(search: RawSearch, stored: StoredIds)
    requires Truthy(search.code)
    ensures PlannedRequest(search, stored).None?
  {
  }

  /** The order id falls back to merchant_uid only when orderId is missing or empty. */
  lemma MerchantUidFallback(search: RawSearch)
    requires !Truthy(search.orderId) && Truthy(search.merchantUid)
    ensures PlannedRequest(search, Absent).Some? || Truthy(search.code)
    ensures !Truthy(search.code) ==> PlannedRequest(search, Absent).value.orderId == search.merchantUid.value
    ensures !Truthy(search.code) ==> PlannedRequest(search, Absent).value.cartItemIdsToDelete == []
  {
  }
}
