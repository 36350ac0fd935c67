/**
 * One seller's group in the shopping cart. The group keeps its own copy of
 * its lines; the set of selected cart-item ids is shared by every group on
 * the cart page. Quantity edits are optimistic (written locally, reported to
 * the page, then sent, and rolled back if the server refuses); deletion is
 * pessimistic (nothing changes locally until the server confirms).
 */
module CartGroup {

  /** A cart line; only the fields the handlers touch are named. */
  datatype CartItem = CartItem(cartItemId: int, quantity: int, productName: string, productPrice: int)

  /** What a remote cart call came back with: an HTTP status, or an exception. */
  datatype Response = Status(code: int) | Thrown

  /** The ids of a group's lines, in order (`data.map(item => item.cartItemId)`). */
  function IdsOf(lines: seq<CartItem>): (r: seq<int>)
    ensures |r| == |lines|
    ensures forall i :: 0 <= i < |lines| ==> r[i] == lines[i].cartItemId
  {
    seq(|lines|, i requires 0 <= i < |lines| => lines[i].cartItemId)
  }

  /** The same ids as a set. */
  function IdSet(lines: seq<CartItem>): set<int>
  {
    set i | 0 <= i < |lines| :: lines[i].cartItemId
  }

  /** Every line has a quantity of at least one. */
  ghost predicate QuantitiesPositive(lines: seq<CartItem>)
  {
    forall i :: 0 <= i < |lines| ==> lines[i].quantity >= 1
  }

  /** The lines with the one at `index` given a new quantity. */
  function WithQuantity(lines: seq<CartItem>, index: nat, qty: int): (r: seq<CartItem>)
    requires index < |lines|
    ensures |r| == |lines|
    ensures r[index] == lines[index].(quantity := qty)
    ensures forall i :: 0 <= i < |lines| && i != index ==> r[i] == lines[i]
  {
    lines[index := lines[index].(quantity := qty)]
  }

  /** An edit that the floor lets through keeps every quantity at one or more. */
  lemma QuantityFloorKept(lines: seq<CartItem>, index: nat, amount: int)
    requires index < |lines| && QuantitiesPositive(lines)
    requires lines[index].quantity + amount >= 1
    ensures QuantitiesPositive(WithQuantity(lines, index, lines[index].quantity + amount))
  {
  }

  /** The lines without the one at `index` (`splice(index, 1)`). */
  function RemoveAt(lines: seq<CartItem>, index: nat): (r: seq<CartItem>)
    requires index < |lines|
    ensures |r| == |lines| - 1
    ensures forall i :: 0 <= i < index ==> r[i] == lines[i]
    ensures forall i :: index <= i < |r| ==> r[i] == lines[i + 1]
  {
    lines[..index] + lines[index + 1..]
  }

  /** Removing a line keeps the others' quantities. */
  lemma RemoveKeepsFloor(lines: seq<CartItem>, index: nat)
    requires index < |lines| && QuantitiesPositive(lines)
    ensures QuantitiesPositive(RemoveAt(lines, index))
  {
  }

  /** The selection of cart-item ids shared by all groups of the cart page. */
  class Selection {
    var ids: set<int>

    constructor(initial: set<int>)
      ensures ids == initial
    {
      ids := initial;
    }
  }

  class CartGroupView {
    var data: seq<CartItem>
    const sellerId: int
    const selection: Selection
    /** Calls of the page's `onChangeQuantity(cartItemId, quantity)`, in order. */
    var quantityReports: seq<(int, int)>
    /** Remote quantity updates sent, as (cartItemId, quantity). */
    var quantityRequests: seq<(int, int)>
    /** Remote deletions sent, each with its list of ids. */
    var deleteRequests: seq<seq<int>>
    /** Calls of `onGroupDelete(sellerId)`. */
    var groupDeletes: seq<int>
    /** How many times the cart badge count was re-fetched. */
    var cartCountRefreshes: nat

    ghost predicate Valid()
      reads this
    {
      QuantitiesPositive(data)
    }

    constructor(items: seq<CartItem>, seller: int, shared: Selection)
      ensures data == items && sellerId == seller && selection == shared
      ensures quantityReports == [] && quantityRequests == [] && deleteRequests == []
      ensures groupDeletes == [] && cartCountRefreshes == 0
    {
      data := items;
      sellerId := seller;
      selection := shared;
      quantityReports := [];
      quantityRequests := [];
      deleteRequests := [];
      groupDeletes := [];
      cartCountRefreshes := 0;
    }

    /** The header checkbox: every line of this group is selected (vacuously so for an empty group). */
    predicate HeaderChecked()
      reads this, selection
    {
      forall i :: 0 <= i < |data| ==> data[i].cartItemId in selection.ids
    }

    /** `handleSelectItem`: add or remove one id, leaving every other selection alone. */
    method SelectItem(cartItemId: int, isSelected: bool)
      modifies selection
      ensures isSelected ==> selection.ids == old(selection.ids) + {cartItemId}
      ensures !isSelected ==> selection.ids == old(selection.ids) - {cartItemId}
    {
      if isSelected {
        selection.ids := selection.ids + {cartItemId};
      } else {
        selection.ids := selection.ids - {cartItemId};
      }
    }

    /** `handleSelectAll`: add or remove exactly this group's ids, one by one. */
    method SelectAll(isSelected: bool)
      modifies selection
      ensures isSelected ==> selection.ids == old(selection.ids) + IdSet(data)
      ensures !isSelected ==> selection.ids == old(selection.ids) - IdSet(data)
      ensures forall id :: id !in IdSet(data) ==> (id in selection.ids <==> id in old(selection.ids))
    {
      var allIds := IdsOf(data);
      var updated := selection.ids;
      var k := 0;
      while k < |allIds|
        invariant 0 <= k <= |allIds|
        invariant isSelected ==> updated == old(selection.ids) + set j | 0 <= j < k :: allIds[j]
        invariant !isSelected ==> updated == old(selection.ids) - set j | 0 <= j < k :: allIds[j]
      {
        if isSelected {
          updated := updated + {allIds[k]};
        } else {
          updated := updated - {allIds[k]};
        }
        k := k + 1;
      }
      assert (set j | 0 <= j < |allIds| :: allIds[j]) == IdSet(data);
      selection.ids := updated;
    }

    /**
     * `handleChangeQuantity`. A change that would go below one is ignored
     * outright. Otherwise the new quantity is written and reported, then sent;
     * if the server does not answer 200, the group goes back to the lines it
     * had when the handler began and the old quantity is reported.
     */
    method ChangeQuantity(index: nat, cartItemId: int, amount: int, response: Response)
      requires index < |data|
      modifies this
      ensures old(Valid()) ==> Valid()
      ensures |data| == |old(data)|
      ensures old(data[index].quantity) + amount < 1 ==>
        data == old(data) && quantityReports == old(quantityReports) && quantityRequests == old(quantityRequests)
      ensures old(data[index].quantity) + amount >= 1 && response == Status(200) ==>
        data == WithQuantity(old(data), index, old(data[index].quantity) + amount) &&
        quantityReports == old(quantityReports) + [(cartItemId, old(data[index].quantity) + amount)]
      ensures old(data[index].quantity) + amount >= 1 && response != Status(200) ==>
        data == old(data) &&
        quantityReports == old(quantityReports) +
          [(cartItemId, old(data[index].quantity) + amount), (cartItemId, old(data[index].quantity))]
      ensures old(data[index].quantity) + amount >= 1 ==>
        quantityRequests == old(quantityRequests) + [(cartItemId, old(data[index].quantity) + amount)]
      ensures deleteRequests == old(deleteRequests) && groupDeletes == old(groupDeletes)
      ensures cartCountRefreshes == old(cartCountRefreshes)
    {
      var snapshot := data;
      var oldLine := data[index];
      var newQty := oldLine.quantity + amount;
      if newQty < 1 {
        return;
      }
      var newData := WithQuantity(snapshot, index, newQty);
      data := newData;
      quantityReports := quantityReports + [(cartItemId, newQty)];
      quantityRequests := quantityRequests + [(cartItemId, newData[index].quantity)];
      if response != Status(200) {
        var reverted := snapshot[index := oldLine];
        assert reverted == snapshot;
        data := reverted;
        quantityReports := quantityReports + [(cartItemId, oldLine.quantity)];
      }
    }

    /**
     * `handleDelete`. The line's id is sent for deletion; only a 204 removes
     * the line, deselects its id, refreshes the cart count and, when the group
     * has become empty, tells the page to drop the group.
     */
    method Delete(index: nat, response: Response)
      requires index < |data|
      modifies this, selection
      ensures old(Valid()) ==> Valid()
      ensures deleteRequests == old(deleteRequests) + [[old(data[index].cartItemId)]]
      ensures response != Status(204) ==>
        data == old(data) && selection.ids == old(selection.ids) &&
        groupDeletes == old(groupDeletes) && cartCountRefreshes == old(cartCountRefreshes)
      ensures response == Status(204) ==>
        data == RemoveAt(old(data), index) &&
        selection.ids == old(selection.ids) - {old(data[index].cartItemId)} &&
        cartCountRefreshes == old(cartCountRefreshes) + 1
      ensures response == Status(204) && |old(data)| == 1 ==> groupDeletes == old(groupDeletes) + [sellerId]
      ensures !(response == Status(204) && |old(data)| == 1) ==> groupDeletes == old(groupDeletes)
      ensures quantityReports == old(quantityReports) && quantityRequests == old(quantityRequests)
    {
      var newData := RemoveAt(data, index);
      var removedId := data[index].cartItemId;
      deleteRequests := deleteRequests + [[removedId]];
      if response != Status(204) {
        return;
      }
      data := newData;
      selection.ids := selection.ids - {removedId};
      cartCountRefreshes := cartCountRefreshes + 1;
      if |newData| == 0 {
        groupDeletes := groupDeletes + [sellerId];
      }
    }
  }

  /** An empty group's header checkbox is checked whatever is selected. */
  lemma EmptyGroupHeaderChecked(g: CartGroupView)
    requires g.data == []
    ensures g.HeaderChecked()
  {
  }

  /** The header checkbox is checked exactly when the group's ids are all selected. */
  lemma HeaderCheckedIff(g: CartGroupView)
    ensures g.HeaderChecked() <==> IdSet(g.data) <= g.selection.ids
  {
    if IdSet(g.data) <= g.selection.ids {
      forall i | 0 <= i < |g.data| ensures g.data[i].cartItemId in g.selection.ids {
        assert g.data[i].cartItemId in IdSet(g.data);
      }
    }
  }
}
