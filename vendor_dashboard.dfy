/**
 * The vendor dashboard: the "Active Orders" figure, the Join/Full button of each order, and
 * `joinGroupOrder`, which swaps the server's updated record into the list.
 */
module VendorDashboard {
  import opened Wrappers
  import Backend

  /** A group order as the dashboard holds it. */
  datatype Order = Order(
    id: string, title: string, supplier: string, totalItems: int,
    currentMembers: int, maxMembers: int, deadline: string, savings: string)

  /** `prevOrders.map(order => order.id === updated.id ? updated : order)`. */
  function ReplaceById(orders: seq<Order>, updated: Order): (r: seq<Order>)
    ensures |r| == |orders|
    ensures forall i :: 0 <= i < |orders| && orders[i].id == updated.id ==> r[i] == updated
    ensures forall i :: 0 <= i < |orders| && orders[i].id != updated.id ==> r[i] == orders[i]
  {
    if orders == [] then []
    else [if orders[0].id == updated.id then updated else orders[0]] + ReplaceById(orders[1..], updated)
  }

  /** The list keeps its ids in their positions, so its order is kept. */
  lemma ReplaceKeepsIds(orders: seq<Order>, updated: Order)
    ensures forall i :: 0 <= i < |orders| ==> ReplaceById(orders, updated)[i].id == orders[i].id
  {
  }

  /** A returned record whose id is not in the list changes nothing. */
  lemma ReplaceAbsentIsIdentity(orders: seq<Order>, updated: Order)
    requires forall i :: 0 <= i < |orders| ==> orders[i].id != updated.id
    ensures ReplaceById(orders, updated) == orders
  {
  }

  /** Swapping in the same record twice is swapping it in once. */
  lemma ReplaceIdempotent(orders: seq<Order>, updated: Order)
    ensures ReplaceById(ReplaceById(orders, updated), updated) == ReplaceById(orders, updated)
  {
  }

  /** The "Active Orders" figure. */
  function ActiveOrdersFigure(orders: seq<Order>): (r: nat)
  {
    |orders|
  }

  /** A join never changes the "Active Orders" figure. */
  lemma JoinKeepsFigure(orders: seq<Order>, updated: Order)
    ensures ActiveOrdersFigure(ReplaceById(orders, updated)) == ActiveOrdersFigure(orders)
  {
  }

  /** The Join button is disabled. */
  predicate JoinDisabled(order: Order)
  {
    order.currentMembers >= order.maxMembers
  }

  /** The Join button's caption. */
  function JoinCaption(order: Order): (r: string)
  {
    if order.currentMembers >= order.maxMembers then "Full" else "Join Order"
  }

  /** "Full" is shown exactly on the disabled buttons. */
  lemma CaptionMatchesDisabled(order: Order)
    ensures JoinCaption(order) == "Full" <==> JoinDisabled(order)
    ensures JoinCaption(order) == "Join Order" <==> !JoinDisabled(order)
  {
  }

  /**
   * The button is disabled exactly when the server would answer "Group is already full"
   * for the same membership figures, so an enabled button asks for a join the server admits.
   */
  lemma DisabledMirrorsServer(order: Order, row: Backend.GroupOrder)
    requires order.currentMembers == row.currentMembers && order.maxMembers == row.maxMembers
    ensures JoinDisabled(order) <==> Backend.IsFull(row)
    ensures !JoinDisabled(order) <==> Backend.JoinDecision(Some(row)).Admitted?
    ensures !JoinDisabled(order) ==>
      Backend.JoinDecision(Some(row)).order.currentMembers == order.currentMembers + 1
  {
  }

  /** The page's order list. */
  class VendorDashboardPage {
    var groupOrders: seq<Order>

    constructor ()
      ensures groupOrders == []
    {
      groupOrders := [];
    }

    /**
     * `joinGroupOrder(orderId)`; `reply` is the record the server returns, or None when the
     * request fails. Returns whether the failure alert was raised. The list is updated by the
     * returned record's id, not by `orderId`.
     */
    method JoinGroupOrder(orderId: string, reply: Option<Order>) returns (alerted: bool)
      modifies this`groupOrders
      ensures reply.Some? ==> groupOrders == ReplaceById(old(groupOrders), reply.value) && !alerted
      ensures reply.None? ==> groupOrders == old(groupOrders) && alerted
      ensures |groupOrders| == |old(groupOrders)|
    {
      if reply.Some? {
        groupOrders := ReplaceById(groupOrders, reply.value);
        alerted := false;
      } else {
        alerted := true;
      }
    }
  }
}
