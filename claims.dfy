/**
 * The seller's cancel/return/exchange screen: a request list narrowed by type,
 * status and a case-insensitive keyword, three summary counters over the whole
 * list, and a selected request that falls back to the first one.
 */
module Claims {
  import opened Util

  /** The filter value that switches a criterion off. */
  const Everything := "전체"

  datatype ClaimRequest = ClaimRequest(
    id: string,
    requestType: string,
    orderNo: string,
    customerName: string,
    productName: string,
    date: string,
    status: string,
    amount: int)

  /** The screen's filter state; the two date fields are held but never read by the filter. */
  datatype Criteria = Criteria(
    typeFilter: string,
    statusFilter: string,
    dateFrom: string,
    dateTo: string,
    keyword: string)

  /** The text the keyword is searched in. */
  function SearchText(r: ClaimRequest): string
  {
    r.id + r.orderNo + r.customerName + r.productName
  }

  /** The filter callback: each criterion either is switched off or must hold. */
  predicate Keeps(c: Criteria, r: ClaimRequest)
  {
    (c.typeFilter == Everything || r.requestType == c.typeFilter) &&
    (c.statusFilter == Everything || r.status == c.statusFilter) &&
    (c.keyword == "" || Includes(Lower(SearchText(r)), Lower(c.keyword)))
  }

  /** `filteredRequests`. */
  function FilterRequests(requests: seq<ClaimRequest>, c: Criteria): (r: seq<ClaimRequest>)
    ensures IsSubseq(r, requests)
    ensures forall x :: x in r <==> x in requests && Keeps(c, x)
  {
    var r := Filter(requests, (x: ClaimRequest) => Keeps(c, x));
    FilterIsSubseq(requests, (x: ClaimRequest) => Keeps(c, x));
    forall x
      ensures x in r <==> x in requests && Keeps(c, x)
    {
      FilterMembership(requests, (x: ClaimRequest) => Keeps(c, x), x);
    }
    r
  }

  /** With every criterion switched off, the whole list is shown. */
  lemma AllCriteriaOff(requests: seq<ClaimRequest>, dateFrom: string, dateTo: string)
    ensures FilterRequests(requests, Criteria(Everything, Everything, dateFrom, dateTo, "")) == requests
  {
    FilterKeepsAll(requests, (x: ClaimRequest) => Keeps(Criteria(Everything, Everything, dateFrom, dateTo, ""), x));
  }

  /** The date range inputs and the requests' own dates never change what is shown. */
  lemma {:induction false} DatesIgnored(requests: seq<ClaimRequest>, c: Criteria, from: string, to: string, r: ClaimRequest, d: string)
    ensures FilterRequests(requests, c.(dateFrom := from, dateTo := to)) == FilterRequests(requests, c)
    ensures Keeps(c, r.(date := d)) == Keeps(c, r)
  {
    var c2 := c.(dateFrom := from, dateTo := to);
    FilterAgree(requests, (x: ClaimRequest) => Keeps(c2, x), (x: ClaimRequest) => Keeps(c, x));
  }

  /** The keyword matches whatever the letter case on either side. */
  lemma KeywordCaseInsensitive(c: Criteria, r: ClaimRequest, upper: string)
    requires Lower(upper) == Lower(c.keyword) && upper != ""
    ensures Keeps(c.(keyword := upper), r) == Keeps(c, r)
  {
  }

  predicate IsPending(r: ClaimRequest)
  {
    r.status == "접수" || r.status == "처리대기"
  }

  predicate IsCompleted(r: ClaimRequest)
  {
    r.status == "완료"
  }

  predicate AwaitsRefund(r: ClaimRequest)
  {
    r.requestType != "교환" && r.status != "완료"
  }

  function PendingCount(requests: seq<ClaimRequest>): (n: nat)
    ensures n <= |requests|
  {
    |Filter(requests, IsPending)|
  }

  function CompletedCount(requests: seq<ClaimRequest>): (n: nat)
    ensures n <= |requests|
  {
    |Filter(requests, IsCompleted)|
  }

  function RefundWaitingCount(requests: seq<ClaimRequest>): (n: nat)
    ensures n <= |requests|
  {
    |Filter(requests, AwaitsRefund)|
  }

  /** Pending and completed never overlap, nor do completed and refund-waiting. */
  lemma {:induction false} CountersBounded(requests: seq<ClaimRequest>)
    ensures PendingCount(requests) + CompletedCount(requests) <= |requests|
    ensures CompletedCount(requests) + RefundWaitingCount(requests) <= |requests|
  {
    CountDisjoint(requests, IsPending, IsCompleted);
    CountDisjoint(requests, IsCompleted, AwaitsRefund);
  }

  /** The first request with the id, as `find` returns it. */
  function FindById(requests: seq<ClaimRequest>, id: string): (r: Option<ClaimRequest>)
    ensures r.Some? ==> r.value in requests && r.value.id == id
    ensures r.None? <==> forall i :: 0 <= i < |requests| ==> requests[i].id != id
    ensures r.Some? && requests[0].id == id ==> r.value == requests[0]
  {
    if requests == [] then None
    else if requests[0].id == id then Some(requests[0])
    else FindById(requests[1..], id)
  }

  /** `find` returns the first match: the request at the first index carrying the id, whatever follows it. */
  lemma {:induction false} FindByIdIsFirst(requests: seq<ClaimRequest>, id: string, i: nat)
    requires i < |requests| && requests[i].id == id
    requires forall j :: 0 <= j < i ==> requests[j].id != id
    ensures FindById(requests, id) == Some(requests[i])
    decreases i
  {
    if i > 0 {
      assert requests[0].id != id;
      forall j | 0 <= j < i - 1
        ensures requests[1..][j].id != id
      {
        assert requests[1..][j] == requests[j + 1];
      }
      FindByIdIsFirst(requests[1..], id, i - 1);
      assert requests[1..][i - 1] == requests[i];
    }
  }

  /** `find(r => r.id === selectedId) ?? requests[0]`; `None` stands for `undefined` on an empty list. */
  function SelectedRequest(requests: seq<ClaimRequest>, selectedId: Option<string>): (r: Option<ClaimRequest>)
    ensures r.None? <==> requests == []
    ensures selectedId.Some? && FindById(requests, selectedId.value).Some? ==>
      r == FindById(requests, selectedId.value)
    ensures requests != [] && (selectedId.None? || FindById(requests, selectedId.value).None?) ==>
      r == Some(requests[0])
  {
    if selectedId.Some? && FindById(requests, selectedId.value).Some? then FindById(requests, selectedId.value)
    else if requests == [] then None
    else Some(requests[0])
  }

  /** `requests[0]?.id ?? null`. */
  function InitialSelectedId(requests: seq<ClaimRequest>): (id: Option<string>)
    ensures requests == [] <==> id.None?
  {
    if requests == [] then None else Some(requests[0].id)
  }

  /** The initial selection is the first request, and an unknown id falls back to it too. */
  lemma SelectionFallsBackToFirst(requests: seq<ClaimRequest>, unknown: string)
    requires requests != []
    requires forall i :: 0 <= i < |requests| ==> requests[i].id != unknown
    ensures SelectedRequest(requests, InitialSelectedId(requests)) == Some(requests[0])
    ensures SelectedRequest(requests, Some(unknown)) == Some(requests[0])
  {
  }
}
