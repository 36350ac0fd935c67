/**
 * The admin screen of sellers waiting for approval. A dictionary from seller
 * id to 'approved' or 'rejected' records the decisions taken on this screen;
 * cancelling a decision deletes the key again.
 */
module AdminSellers {
  import opened RowToggle

  datatype Seller = Seller(sellerId: int, name: string, company: string, businessNumber: string)

  const Approved := "approved"
  const Rejected := "rejected"

  /** `{ ...prev, [id]: decision }`. */
  function Decide(status: map<int, string>, id: int, decision: string): (r: map<int, string>)
    ensures id in r && r[id] == decision
    ensures forall k :: k != id ==> (k in r <==> k in status)
    ensures forall k :: k != id && k in status ==> r[k] == status[k]
  {
    status[id := decision]
  }

  /** A copy of the dictionary with `id`'s key deleted. */
  function Cancel(status: map<int, string>, id: int): (r: map<int, string>)
    ensures id !in r
    ensures forall k :: k != id ==> (k in r <==> k in status)
    ensures forall k :: k != id && k in status ==> r[k] == status[k]
  {
    status - {id}
  }

  /** Every recorded decision is one of the two the buttons write. */
  ghost predicate Decisions(status: map<int, string>)
  {
    forall k :: k in status ==> status[k] == Approved || status[k] == Rejected
  }

  /** `!sellerStatus[id]`: no decision, or a falsy (empty) one. */
  predicate ButtonsShown(status: map<int, string>, id: int)
  {
    id !in status || status[id] == ""
  }

  /** The text shown in place of the buttons. */
  function DecisionLabel(status: map<int, string>, id: int): (text: string)
    ensures id in status && status[id] == Approved <==> text == "승인됨"
    ensures text == "승인됨" || text == "거절됨"
  {
    if id in status && status[id] == Approved then "승인됨" else "거절됨"
  }

  /** On a dictionary the buttons themselves wrote, the buttons show exactly for undecided sellers. */
  lemma ButtonsIffUndecided(status: map<int, string>, id: int)
    requires Decisions(status)
    ensures ButtonsShown(status, id) <==> id !in status
    ensures !ButtonsShown(status, id) ==> (DecisionLabel(status, id) == "거절됨" <==> status[id] == Rejected)
  {
  }

  /** Approving, rejecting and cancelling keep every value a known decision. */
  lemma EditsKeepDecisions(status: map<int, string>, id: int)
    requires Decisions(status)
    ensures Decisions(Decide(status, id, Approved))
    ensures Decisions(Decide(status, id, Rejected))
    ensures Decisions(Cancel(status, id))
  {
  }

  /** Approve (or reject) followed by cancel leaves the seller undecided and everybody else as before. */
  lemma DecideThenCancel(status: map<int, string>, id: int, decision: string)
    ensures Cancel(Decide(status, id, decision), id) == Cancel(status, id)
    ensures id !in status ==> Cancel(Decide(status, id, decision), id) == status
    ensures ButtonsShown(Cancel(Decide(status, id, decision), id), id)
  {
  }

  class SellerApprovalPage {
    /** The seller list has a setter that nothing calls. */
    const sellers: seq<Seller>
    var sellerStatus: map<int, string>
    var expandedRows: seq<int>

    ghost predicate Valid()
      reads this
    {
      Decisions(sellerStatus)
    }

    constructor(list: seq<Seller>)
      ensures sellers == list && sellerStatus == map[] && expandedRows == []
      ensures Valid()
    {
      sellers := list;
      sellerStatus := map[];
      expandedRows := [];
    }

    method Approve(id: int)
      modifies this
      ensures sellerStatus == Decide(old(sellerStatus), id, Approved)
      ensures expandedRows == old(expandedRows)
      ensures old(Valid()) ==> Valid()
    {
      sellerStatus := Decide(sellerStatus, id, Approved);
    }

    method Reject(id: int)
      modifies this
      ensures sellerStatus == Decide(old(sellerStatus), id, Rejected)
      ensures expandedRows == old(expandedRows)
      ensures old(Valid()) ==> Valid()
    {
      sellerStatus := Decide(sellerStatus, id, Rejected);
    }

    method CancelDecision(id: int)
      modifies this
      ensures sellerStatus == Cancel(old(sellerStatus), id)
      ensures expandedRows == old(expandedRows)
      ensures old(Valid()) ==> Valid()
    {
      sellerStatus := Cancel(sellerStatus, id);
    }

    method ToggleRow(id: int)
      modifies this
      ensures expandedRows == Toggled(old(expandedRows), id)
      ensures sellerStatus == old(sellerStatus)
    {
      expandedRows := Toggled(expandedRows, id);
    }
  }
}
