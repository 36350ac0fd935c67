/**
 * The `order` slice of the Redux store: the items the buyer is about to
 * check out. Two reducers replace the list: `setOrderItems` with the payload,
 * `clearOrderItems` with the empty list.
 */
module OrderSlice {

  /** An item handed from the cart to checkout. */
  datatype OrderItem = OrderItem(cartItemId: int, productName: string, quantity: int)

  /** The actions the slice accepts. */
  datatype Action = SetOrderItems(payload: seq<OrderItem>) | ClearOrderItems

  /** What one action leaves in the slice; the previous list never matters. */
  function Apply(items: seq<OrderItem>, a: Action): (r: seq<OrderItem>)
    ensures a.SetOrderItems? ==> r == a.payload
    ensures a.ClearOrderItems? ==> r == []
  {
    match a
    case SetOrderItems(p) => p
    case ClearOrderItems => []
  }

  /** The slice after a whole run of actions, from a given start. */
  function Replay(items: seq<OrderItem>, actions: seq<Action>): seq<OrderItem>
    decreases |actions|
  {
    if actions == [] then items else Replay(Apply(items, actions[0]), actions[1..])
  }

  /** The payload of the last action in the run (the empty list for a clear), if there is one. */
  function LastPayload(actions: seq<Action>): (r: seq<OrderItem>)
    requires actions != []
  {
    Apply([], actions[|actions| - 1])
  }

  /** The last call wins: after a non-empty run the slice holds exactly what the last action put there. */
  lemma {:induction false} ReplayLastWins(items: seq<OrderItem>, actions: seq<Action>)
    requires actions != []
    ensures Replay(items, actions) == LastPayload(actions)
    decreases |actions|
  {
    if |actions| > 1 {
      ReplayLastWins(Apply(items, actions[0]), actions[1..]);
      assert actions[1..][|actions[1..]| - 1] == actions[|actions| - 1];
    }
  }

  /** Set followed by clear leaves the empty list, whatever the payload; clear twice is clear once. */
  lemma SetThenClear(items: seq<OrderItem>, payload: seq<OrderItem>)
    ensures Replay(items, [SetOrderItems(payload), ClearOrderItems]) == []
    ensures Replay(items, [ClearOrderItems, ClearOrderItems]) == Replay(items, [ClearOrderItems])
  {
    ReplayLastWins(items, [SetOrderItems(payload), ClearOrderItems]);
    ReplayLastWins(items, [ClearOrderItems, ClearOrderItems]);
    ReplayLastWins(items, [ClearOrderItems]);
  }

  /** The slice as the store holds it. */
  class OrderStore {
    var orderItems: seq<OrderItem>

    constructor()
      ensures orderItems == []
    {
      orderItems := [];
    }

    method SetItems(payload: seq<OrderItem>)
      modifies this
      ensures orderItems == Apply(old(orderItems), SetOrderItems(payload))
      ensures orderItems == payload
    {
      orderItems := payload;
    }

    method Clear()
      modifies this
      ensures orderItems == Apply(old(orderItems), ClearOrderItems)
      ensures orderItems == []
    {
      orderItems := [];
    }
  }
}
