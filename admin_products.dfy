/**
 * The admin screen of product registrations waiting for approval: the pending
 * list, a dictionary of product details built from settled lookups, the
 * status counters, each row's status badge and buttons, and the
 * approve/reject handler behind a confirmation dialog.
 */
module AdminProducts {
  import opened Util

  datatype PendingProduct = PendingProduct(productId: string, productName: string, productPrice: int, productStatus: string)

  /** The fields of a detail response the row shows; each may be missing. */
  datatype Detail = Detail(categoryName: Option<string>, sellerName: Option<string>, sellerGrade: Option<string>)

  /** One entry of `Promise.allSettled`. */
  datatype Settled = Fulfilled(detail: Detail) | Failed

  // ---------------------------------------------------------------------
  // detailsMap

  /** The dictionary after the `forEach` has visited the first `n` results. */
  function DetailsUpTo(list: seq<PendingProduct>, results: seq<Settled>, n: nat): map<string, Detail>
    requires n <= |list| == |results|
  {
    if n == 0 then map[]
    else
      var m := DetailsUpTo(list, results, n - 1);
      if results[n - 1].Fulfilled? then m[list[n - 1].productId := results[n - 1].detail] else m
  }

  /** A product has an entry iff one of its lookups was fulfilled, and the entry is a fulfilled detail for it. */
  lemma {:induction false} DetailsOnlyFulfilled(list: seq<PendingProduct>, results: seq<Settled>, n: nat, id: string)
    requires n <= |list| == |results|
    ensures id in DetailsUpTo(list, results, n) <==>
      exists i :: 0 <= i < n && list[i].productId == id && results[i].Fulfilled?
    ensures id in DetailsUpTo(list, results, n) ==>
      exists i :: 0 <= i < n && list[i].productId == id && results[i] == Fulfilled(DetailsUpTo(list, results, n)[id])
  {
    if n > 0 {
      DetailsOnlyFulfilled(list, results, n - 1, id);
      if results[n - 1].Fulfilled? && list[n - 1].productId == id {
        assert results[n - 1] == Fulfilled(DetailsUpTo(list, results, n)[id]);
      }
    }
  }

  /** The `results.forEach` loop that fills `detailsMap`; the results line up with the list by construction. */
  method BuildDetailsMap(list: seq<PendingProduct>, results: seq<Settled>) returns (m: map<string, Detail>)
    requires |results| == |list|
    ensures m == DetailsUpTo(list, results, |list|)
    ensures forall id :: id in m <==> exists i :: 0 <= i < |list| && list[i].productId == id && results[i].Fulfilled?
  {
    m := map[];
    var idx := 0;
    while idx < |results|
      invariant 0 <= idx <= |results|
      invariant m == DetailsUpTo(list, results, idx)
    {
      if results[idx].Fulfilled? {
        m := m[list[idx].productId := results[idx].detail];
      }
      idx := idx + 1;
    }
    forall id
      ensures id in m <==> exists i :: 0 <= i < |list| && list[i].productId == id && results[i].Fulfilled?
    {
      DetailsOnlyFulfilled(list, results, |list|, id);
    }
  }

  // ---------------------------------------------------------------------
  // Counters

  function CountStatus(products: seq<PendingProduct>, status: string): (n: nat)
    ensures n <= |products|
  {
    |Filter(products, (p: PendingProduct) => p.productStatus == status)|
  }

  /** Each product has one status, so pending + approved + rejected never exceeds the total. */
  lemma {:induction false} CountersBounded(products: seq<PendingProduct>)
    ensures CountStatus(products, "PENDING") + CountStatus(products, "APPROVED") + CountStatus(products, "REJECTED") <= |products|
    decreases |products|
  {
    if products != [] {
      CountersBounded(products[1..]);
    }
  }

  // ---------------------------------------------------------------------
  // AdminProductRow

  /** `productStatus || 'PENDING'`. */
  function RowStatus(productStatus: string): (s: string)
    ensures productStatus != "" ==> s == productStatus
    ensures productStatus == "" ==> s == "PENDING"
  {
    if productStatus != "" then productStatus else "PENDING"
  }

  /** `statusLabelMap[status] || status`. */
  function RowLabel(status: string): (text: string)
    ensures status == "PENDING" ==> text == "승인 대기"
    ensures status == "APPROVED" ==> text == "승인 완료"
    ensures status == "REJECTED" ==> text == "반려"
    ensures status !in {"PENDING", "APPROVED", "REJECTED"} ==> text == status
  {
    if status == "PENDING" then "승인 대기"
    else if status == "APPROVED" then "승인 완료"
    else if status == "REJECTED" then "반려"
    else status
  }

  /** `statusVariantMap[status] || 'outline'`. */
  function RowVariant(status: string): (v: string)
    ensures v == "default" <==> status == "APPROVED"
    ensures v == "destructive" <==> status == "REJECTED"
    ensures v == "outline" <==> status != "APPROVED" && status != "REJECTED"
  {
    if status == "APPROVED" then "default"
    else if status == "REJECTED" then "destructive"
    else "outline"
  }

  /** Both buttons are enabled iff the row's status is PENDING, an empty status included. */
  predicate ButtonsEnabled(p: PendingProduct)
  {
    RowStatus(p.productStatus) == "PENDING"
  }

  lemma ButtonsEnabledIff(p: PendingProduct)
    ensures ButtonsEnabled(p) <==> p.productStatus == "" || p.productStatus == "PENDING"
    ensures ButtonsEnabled(p) ==> RowLabel(RowStatus(p.productStatus)) == "승인 대기"
  {
  }

  /** `detail?.field ?? '-'`. */
  function OrDash(v: Option<string>): (s: string)
    ensures v.Some? ==> s == v.value
    ensures v.None? ==> s == "-"
  {
    if v.Some? then v.value else "-"
  }

  // ---------------------------------------------------------------------
  // handleUpdateStatus

  /** `nextStatus === 'APPROVED' ? '승인' : '반려'`. */
  function ActionLabel(nextStatus: string): (text: string)
    ensures text == "승인" <==> nextStatus == "APPROVED"
    ensures text != "승인" ==> text == "반려"
  {
    if nextStatus == "APPROVED" then "승인" else "반려"
  }

  /** `prev.map(p => p.productId === productId ? { ...p, productStatus: nextStatus } : p)`. */
  function SetStatus(products: seq<PendingProduct>, productId: string, nextStatus: string): (r: seq<PendingProduct>)
    ensures |r| == |products|
    ensures forall i :: 0 <= i < |products| && products[i].productId == productId ==>
      r[i] == products[i].(productStatus := nextStatus)
    ensures forall i :: 0 <= i < |products| && products[i].productId != productId ==> r[i] == products[i]
  {
    seq(|products|, i requires 0 <= i < |products| =>
      if products[i].productId == productId then products[i].(productStatus := nextStatus) else products[i])
  }

  /** Setting the same status twice is setting it once. */
  lemma SetStatusIdempotent(products: seq<PendingProduct>, productId: string, nextStatus: string)
    ensures SetStatus(SetStatus(products, productId, nextStatus), productId, nextStatus) == SetStatus(products, productId, nextStatus)
  {
  }

  /** An error response's text: `message ?? error ?? fallback`. */
  function ErrorText(message: Option<string>, error: Option<string>, fallback: string): (s: string)
    ensures message.Some? ==> s == message.value
    ensures message.None? && error.Some? ==> s == error.value
    ensures message.None? && error.None? ==> s == fallback
  {
    if message.Some? then message.value else if error.Some? then error.value else fallback
  }

  const UpdateFailedText := "상품 상태 변경 중 오류가 발생했습니다."
  const LoadFailedText := "승인 대기 상품 목록을 불러오는 데 실패했습니다."

  /** How a remote call ends: resolved, or thrown with the response's message and error fields. */
  datatype CallOutcome = Resolved | Thrown(message: Option<string>, error: Option<string>)

  /** What `getPendingProducts` resolves with: an array, or something else. */
  datatype Listing = IsArray(items: seq<PendingProduct>) | NotArray

  class PendingProductsPage {
    var products: seq<PendingProduct>
    var detailsMap: map<string, Detail>
    var loading: bool
    var error: Option<string>
    var alerts: seq<string>
    /** The (productId, nextStatus) pairs sent to the server, oldest first. */
    var updateRequests: seq<(string, string)>

    constructor()
      ensures products == [] && detailsMap == map[] && !loading && error.None?
      ensures alerts == [] && updateRequests == []
    {
      products := [];
      detailsMap := map[];
      loading := false;
      error := None;
      alerts := [];
      updateRequests := [];
    }

    /**
     * The mount effect. `listing` is the list call's outcome; `results` are
     * the detail lookups, one per listed product. The dictionary is replaced
     * only when the list is non-empty.
     */
    method Load(outcome: CallOutcome, listing: Listing, results: seq<Settled>)
      requires outcome.Resolved? && listing.IsArray? ==> |results| == |listing.items|
      modifies this
      ensures !loading
      ensures outcome.Resolved? ==> error.None? && products == (if listing.IsArray? then listing.items else [])
      ensures outcome.Resolved? && |products| > 0 ==> detailsMap == DetailsUpTo(products, results, |products|)
      ensures outcome.Resolved? && |products| == 0 ==> detailsMap == old(detailsMap)
      ensures outcome.Thrown? ==>
        products == old(products) && detailsMap == old(detailsMap) &&
        error == Some(ErrorText(outcome.message, outcome.error, LoadFailedText))
      ensures alerts == old(alerts) && updateRequests == old(updateRequests)
    {
      loading := true;
      error := None;
      match outcome {
        case Thrown(message, err) =>
          error := Some(ErrorText(message, err, LoadFailedText));
        case Resolved =>
          var list := if listing.IsArray? then listing.items else [];
          products := list;
          if |list| > 0 {
            detailsMap := BuildDetailsMap(list, results);
          }
      }
      loading := false;
    }

    /** Approve or reject one product; nothing at all happens when the confirmation is declined. */
    method UpdateStatus(productId: string, nextStatus: string, confirmed: bool, outcome: CallOutcome)
      modifies this
      ensures !confirmed ==>
        products == old(products) && alerts == old(alerts) && updateRequests == old(updateRequests)
      ensures confirmed ==> updateRequests == old(updateRequests) + [(productId, nextStatus)]
      ensures confirmed && outcome.Resolved? ==>
        products == SetStatus(old(products), productId, nextStatus) &&
        alerts == old(alerts) + [ActionLabel(nextStatus) + " 처리되었습니다."]
      ensures confirmed && outcome.Thrown? ==>
        products == old(products) &&
        alerts == old(alerts) + [ErrorText(outcome.message, outcome.error, UpdateFailedText)]
      ensures detailsMap == old(detailsMap) && loading == old(loading) && error == old(error)
    {
      var actionLabel := ActionLabel(nextStatus);
      if !confirmed {
        return;
      }
      updateRequests := updateRequests + [(productId, nextStatus)];
      match outcome {
        case Resolved =>
          products := SetStatus(products, productId, nextStatus);
          alerts := alerts + [actionLabel + " 처리되었습니다."];
        case Thrown(message, err) =>
          alerts := alerts + [ErrorText(message, err, UpdateFailedText)];
      }
    }
  }
}
