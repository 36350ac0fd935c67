/**
 * The checkout page. On mount it asks the server to pre-check the stored
 * order items; an OUT_OF_STOCK answer sends the buyer back to the cart,
 * otherwise the answer is shown with its default address pre-selected.
 * Placing the order sends a fixed address id and fixed item ids.
 */
module Checkout {
  import opened Util
  import OS = OrderSlice

  datatype Address = Address(addressId: string, receiverName: string, addressLine: string)

  /** The pre-check answer; `status` is 'OUT_OF_STOCK' when some item cannot be supplied. */
  datatype CheckoutInfo = CheckoutInfo(
    status: string,
    addresses: seq<Address>,
    defaultAddressId: string,
    totalPrice: int)

  /** `getCheckoutInfo` either resolves with an answer or throws. */
  datatype PreCheck = Answer(info: CheckoutInfo) | Raised

  /** `createOrder` either resolves with the new order's id or throws. */
  datatype OrderOutcome = Created(orderId: string) | Refused

  /** A client-side navigation: target path and the `error` search parameter it adds. */
  datatype Navigation = Navigation(to: string, errorParam: Option<string>)

  const OutOfStock := "OUT_OF_STOCK"
  const OutOfStockMessage := "재고가 부족한 상품이 있습니다."
  const OrderFailedAlert := "주문 생성 실패"

  /** The item ids and address id every order is created with, whatever the buyer chose. */
  const FixedOrderItemIds: seq<string> := [
    "019A6A12-7F22-7FEC-9029-BDBB9F4AA720",
    "019A6A12-7F22-7FEC-9029-BDBB9F4AA721"
  ]
  const FixedAddressId := "019A698D-82C0-7C66-AC4A-293C84ACFA52"

  /** `addresses.find(addr => addr.addressId === id)`: the first match, if any. */
  function FindAddress(addresses: seq<Address>, id: string): (r: Option<Address>)
    ensures r.None? <==> forall i :: 0 <= i < |addresses| ==> addresses[i].addressId != id
    ensures r.Some? ==> r.value.addressId == id
    ensures r.Some? ==>
      exists i :: 0 <= i < |addresses| && addresses[i] == r.value &&
                  forall j :: 0 <= j < i ==> addresses[j].addressId != id
    decreases |addresses|
  {
    if addresses == [] then None
    else if addresses[0].addressId == id then
      assert addresses[0] == addresses[0];
      Some(addresses[0])
    else
      var rest := FindAddress(addresses[1..], id);
      if rest.Some? then
        ghost var i :| 0 <= i < |addresses[1..]| && addresses[1..][i] == rest.value &&
                       forall j :: 0 <= j < i ==> addresses[1..][j].addressId != id;
        assert addresses[i + 1] == rest.value;
        assert forall j :: 0 <= j < i + 1 ==> addresses[j].addressId != id by {
          forall j | 0 <= j < i + 1 ensures addresses[j].addressId != id {
            if j > 0 { assert addresses[j] == addresses[1..][j - 1]; }
          }
        }
        rest
      else
        assert forall j :: 1 <= j < |addresses| ==> addresses[j] == addresses[1..][j - 1];
        rest
  }

  /** The cart-item ids of the stored order items, in order. */
  function PreCheckIds(items: seq<OS.OrderItem>): (r: seq<int>)
    ensures |r| == |items| && forall i :: 0 <= i < |items| ==> r[i] == items[i].cartItemId
  {
    seq(|items|, i requires 0 <= i < |items| => items[i].cartItemId)
  }

  datatype View = LoadingView | ErrorView | FormView

  /** Which of the three views the page renders, tried in source order. */
  function RenderBranch(loading: bool, error: bool, hasCheckout: bool): (v: View)
    ensures v == LoadingView <==> loading && !hasCheckout
    ensures v == ErrorView <==> (!hasCheckout && !loading) || (hasCheckout && error)
    ensures v == FormView <==> hasCheckout && !error
  {
    if loading && !hasCheckout then LoadingView
    else if error || (!loading && !hasCheckout) then ErrorView
    else FormView
  }

  class CheckoutPage {
    const orderItems: seq<OS.OrderItem>
    var checkout: Option<CheckoutInfo>
    var loading: bool
    var error: bool
    var selectedAddress: Option<Address>
    /** Pre-check requests sent, each with its list of cart-item ids. */
    var preCheckRequests: seq<seq<int>>
    /** `createOrder` requests sent, as (addressId, orderItemIds). */
    var orderRequests: seq<(string, seq<string>)>
    var navigations: seq<Navigation>
    var alerts: seq<string>
    /** The last value assigned to `window.location.href`, if any. */
    var location: Option<string>

    constructor(stored: seq<OS.OrderItem>)
      ensures orderItems == stored
      ensures checkout == None && !loading && !error && selectedAddress == None
      ensures preCheckRequests == [] && orderRequests == [] && navigations == []
      ensures alerts == [] && location == None
    {
      orderItems := stored;
      checkout := None;
      loading := false;
      error := false;
      selectedAddress := None;
      preCheckRequests := [];
      orderRequests := [];
      navigations := [];
      alerts := [];
      location := None;
    }

    /** The view for the current state: the form exactly when an answer is stored without error, never the spinner once loading has ended. */
    function View(): (v: View)
      reads this
      ensures v == FormView <==> checkout.Some? && !error
      ensures !loading ==> v != LoadingView
    {
      RenderBranch(loading, error, checkout.Some?)
    }

    /** `fetchCheckout`: pre-check, then either leave for the cart or show the answer. */
    method FetchCheckout(result: PreCheck)
      modifies this
      ensures preCheckRequests == old(preCheckRequests) + [PreCheckIds(orderItems)]
      ensures !loading
      ensures result.Raised? ==>
        error && checkout == old(checkout) && selectedAddress == old(selectedAddress) &&
        navigations == old(navigations)
      ensures result.Answer? && result.info.status == OutOfStock ==>
        navigations == old(navigations) + [Navigation("/cart", Some(OutOfStockMessage))] &&
        checkout == old(checkout) && selectedAddress == old(selectedAddress) && error == old(error)
      ensures result.Answer? && result.info.status != OutOfStock ==>
        checkout == Some(result.info) &&
        selectedAddress == FindAddress(result.info.addresses, result.info.defaultAddressId) &&
        navigations == old(navigations) && error == old(error)
      ensures orderRequests == old(orderRequests) && alerts == old(alerts) && location == old(location)
    {
      loading := true;
      preCheckRequests := preCheckRequests + [PreCheckIds(orderItems)];
      match result {
        case Raised =>
          error := true;
        case Answer(info) =>
          if info.status == OutOfStock {
            navigations := navigations + [Navigation("/cart", Some(OutOfStockMessage))];
          } else {
            checkout := Some(info);
            selectedAddress := FindAddress(info.addresses, info.defaultAddressId);
          }
      }
      loading := false;
    }

    /** The address selector's callback: the first address with the chosen id, if any. */
    method SelectAddress(addressId: string)
      requires checkout.Some?
      modifies this
      ensures checkout == old(checkout) && loading == old(loading) && error == old(error)
      ensures selectedAddress == FindAddress(checkout.value.addresses, addressId)
      ensures preCheckRequests == old(preCheckRequests) && orderRequests == old(orderRequests)
      ensures navigations == old(navigations) && alerts == old(alerts) && location == old(location)
    {
      selectedAddress := FindAddress(checkout.value.addresses, addressId);
    }

    /** `handleOrder`: the request never carries the selected address. */
    method HandleOrder(outcome: OrderOutcome)
      modifies this
      ensures orderRequests == old(orderRequests) + [(FixedAddressId, FixedOrderItemIds)]
      ensures outcome.Created? ==>
        location == Some("/order/complete?orderId=" + outcome.orderId) && alerts == old(alerts)
      ensures outcome.Refused? ==>
        alerts == old(alerts) + [OrderFailedAlert] && location == old(location)
      ensures !loading
      ensures checkout == old(checkout) && error == old(error) && selectedAddress == old(selectedAddress)
      ensures preCheckRequests == old(preCheckRequests) && navigations == old(navigations)
    {
      loading := true;
      orderRequests := orderRequests + [(FixedAddressId, FixedOrderItemIds)];
      match outcome {
        case Created(id) =>
          location := Some("/order/complete?orderId=" + id);
        case Refused =>
          alerts := alerts + [OrderFailedAlert];
      }
      loading := false;
    }
  }

  /** After the pre-check has settled the page never shows the spinner: it shows the form exactly when an answer was stored without error. */
  lemma SettledViews(loading: bool, error: bool, hasCheckout: bool)
    requires !loading
    ensures RenderBranch(loading, error, hasCheckout) != LoadingView
    ensures RenderBranch(loading, error, hasCheckout) == FormView <==> hasCheckout && !error
  {
  }
}
