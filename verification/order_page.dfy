/**
 The order-management list: fetched orders, pending and completed counters, and the one action
 each order offers, which flips it between pending and completed.
 */
module OrderPage {
  import opened Outcomes
  import opened Seqs
  import opened OrderTypes
  import Expansion
  import OrdersPage

  datatype Order = Order(
    order_id: string,
    cart_id: string,
    items: seq<OrderItem>,
    order_status: string,
    created_at: string,
    updated_at: string)

  /** The response body: JSON null, or an object whose `orders` field may be absent. */
  datatype Body = NullBody | Body(orders: Option<seq<Order>>)

  datatype OrderState = OrderState(orders: seq<Order>, loading: bool, expanded: Option<string>)

  const Initial: OrderState := OrderState([], true, None)

  /** `fetchOrders` as it starts: the spinner comes back. */
  function BeginFetch(s: OrderState): (r: OrderState)
    ensures r.loading && r.orders == s.orders && r.expanded == s.expanded
  {
    s.(loading := true)
  }

  /**
   `fetchOrders` as it settles: `res.data.orders || []` replaces the list; a null body throws
   inside the `try`, so it is caught like a failed request and the list stays.
   */
  function SettleFetch(s: OrderState, fetched: Http<Body>): (r: OrderState)
    ensures !r.loading && r.expanded == s.expanded
    ensures fetched.Ok? && fetched.data.Body? && fetched.data.orders.Some? ==> r.orders == fetched.data.orders.value
    ensures fetched.Ok? && fetched.data.Body? && fetched.data.orders.None? ==> r.orders == []
    ensures fetched.Err? || fetched.data.NullBody? ==> r.orders == s.orders
  {
    match fetched
    case Ok(Body(Some(os))) => s.(orders := os, loading := false)
    case Ok(Body(None)) => s.(orders := [], loading := false)
    case _ => s.(loading := false)
  }

  /**
   A fetch that starts and then settles: a JSON `null` body ends exactly like a failed request,
   and the spinner shown by the start makes no difference to the result.
   */
  lemma NullBodyActsAsFailure(s: OrderState, fetched: Http<Body>)
    ensures SettleFetch(BeginFetch(s), Ok(NullBody)) == SettleFetch(BeginFetch(s), Err)
    ensures SettleFetch(BeginFetch(s), Err) == s.(loading := false)
    ensures SettleFetch(BeginFetch(s), fetched) == SettleFetch(s, fetched)
  {
  }

  /** A click on an order's summary row. */
  function RowClicked(s: OrderState, id: string): (r: OrderState)
    ensures r.expanded == Expansion.Toggle(s.expanded, id)
    ensures r.orders == s.orders && r.loading == s.loading
  {
    s.(expanded := Expansion.Toggle(s.expanded, id))
  }

  predicate IsPending(o: Order) { o.order_status == "pending" }
  predicate IsCompleted(o: Order) { o.order_status == "completed" }

  /** The "Pending" counter: the number of orders whose status is "pending". */
  function PendingCount(orders: seq<Order>): (r: nat)
    ensures r == Count(orders, IsPending)
  {
    FilterLength(orders, IsPending);
    |Filter(orders, IsPending)|
  }

  /** The "Completed" counter: the number of orders whose status is "completed". */
  function CompletedCount(orders: seq<Order>): (r: nat)
    ensures r == Count(orders, IsCompleted)
  {
    FilterLength(orders, IsCompleted);
    |Filter(orders, IsCompleted)|
  }

  /** No order is counted twice: the two counters together never exceed the list. */
  lemma {:induction false} CountersWithinTotal(orders: seq<Order>)
    ensures PendingCount(orders) + CompletedCount(orders) <= |orders|
    decreases |orders|
  {
    if |orders| > 0 {
      CountersWithinTotal(orders[1..]);
    }
  }

  /** The row's badge is green. */
  predicate RowBadgeGreen(status: string)
  {
    status == "completed"
  }

  /** The action button an order offers: pending to completed, completed to pending, else none. */
  function ActionFor(status: string): (r: Option<string>)
    ensures status == "pending" <==> r == Some("completed")
    ensures status == "completed" <==> r == Some("pending")
    ensures status != "pending" && status != "completed" <==> r.None?
  {
    if status == "pending" then Some("completed")
    else if status == "completed" then Some("pending")
    else None
  }

  /** Taking the offered action twice returns the order to its original status. */
  lemma ActionTwiceRestores(status: string)
    requires ActionFor(status).Some?
    ensures ActionFor(ActionFor(status).value) == Some(status)
  {
  }

  /**
   The green badge marks exactly the orders that offer "Mark as Pending", and it agrees with the
   green badge of the diner's orders page.
   */
  lemma GreenRowsOfferPending(status: string)
    ensures RowBadgeGreen(status) <==> ActionFor(status) == Some("pending")
    ensures RowBadgeGreen(status) <==> OrdersPage.StatusBadge(status) == OrdersPage.Green
  {
  }

  /**
   Once the server has applied an order's action, the refetched list moves that order from one
   counter to the other.
   */
  lemma ActionMovesCounters(orders: seq<Order>, k: nat)
    requires k < |orders| && ActionFor(orders[k].order_status).Some?
    ensures var after := orders[k := orders[k].(order_status := ActionFor(orders[k].order_status).value)];
      if IsPending(orders[k]) then
        PendingCount(after) + 1 == PendingCount(orders) && CompletedCount(after) == CompletedCount(orders) + 1
      else
        PendingCount(after) == PendingCount(orders) + 1 && CompletedCount(after) + 1 == CompletedCount(orders)
  {
    var after := orders[k := orders[k].(order_status := ActionFor(orders[k].order_status).value)];
    CountUpdate(orders, k, after[k], IsPending);
    CountUpdate(orders, k, after[k], IsCompleted);
  }

  datatype Request = PatchOrder(order_id: string, order_status: string) | GetOrders

  /** `updateOrderStatus`: send the PATCH; only when it succeeds start a refetch. */
  function UpdateOrderStatus(s: OrderState, id: string, status: string, patch: Http<()>): (r: (OrderState, seq<Request>))
    ensures |r.1| > 0 && r.1[0] == PatchOrder(id, status)
    ensures patch.Ok? ==> r.0 == BeginFetch(s) && r.1 == [PatchOrder(id, status), GetOrders]
    ensures patch.Err? ==> r.0 == s && r.1 == [PatchOrder(id, status)]
  {
    match patch
    case Ok(_) => (BeginFetch(s), [PatchOrder(id, status), GetOrders])
    case Err => (s, [PatchOrder(id, status)])
  }

  /** A failed update sends no refetch and leaves the list, and so both counters, as they were. */
  lemma FailedUpdateKeepsCounters(s: OrderState, id: string, status: string)
    ensures var r := UpdateOrderStatus(s, id, status, Err);
      && GetOrders !in r.1
      && PendingCount(r.0.orders) == PendingCount(s.orders)
      && CompletedCount(r.0.orders) == CompletedCount(s.orders)
      && r.0.loading == s.loading
  {
  }

  /** Clicking the action of an order: nothing when none is offered, otherwise the update above. */
  function ActionClicked(s: OrderState, o: Order, patch: Http<()>): (r: (OrderState, seq<Request>))
    ensures ActionFor(o.order_status).None? ==> r == (s, [])
    ensures ActionFor(o.order_status).Some? ==>
      r == UpdateOrderStatus(s, o.order_id, ActionFor(o.order_status).value, patch)
  {
    match ActionFor(o.order_status)
    case None => (s, [])
    case Some(next) => UpdateOrderStatus(s, o.order_id, next, patch)
  }
}
