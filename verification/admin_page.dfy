/**
 The admin dashboard: every order with a status menu, one status update at a time, and the
 revenue, order and items-sold totals.
 */
module AdminPage {
  import opened Outcomes
  import opened Seqs
  import OrdersPage

  datatype AdminItem = AdminItem(item_name: string, price: int, category: string, quantity: int)
  datatype AdminOrderItem = AdminOrderItem(item: AdminItem, quantity: int, price: int)

  datatype AdminOrder = AdminOrder(
    order_id: string,
    cart_id: string,
    status: string,
    total_amount: int,
    created_at: string,
    order_items: seq<AdminOrderItem>)

  /** The statuses the admin's menu offers. */
  const StatusOptions: seq<string> :=
    ["pending", "preparing", "ready", "payment_failed", "payment_initialized", "served", "completed"]

  /** Seven options, no two alike. */
  lemma StatusOptionsDistinct()
    ensures |StatusOptions| == 7 && NoDup(StatusOptions)
  {
  }

  /**
   The menu offers "payment_initialized" while the diner's badge looks for "payment_initiated",
   so no status the admin can set turns that badge blue.
   */
  lemma NoOptionTurnsBadgeBlue()
    ensures forall k :: 0 <= k < |StatusOptions| ==> OrdersPage.StatusBadge(StatusOptions[k]) != OrdersPage.Blue
  {
  }

  datatype AdminState = AdminState(orders: seq<AdminOrder>, loadingOrderId: Option<string>)

  const Initial: AdminState := AdminState([], None)

  datatype Toast = SuccessToast | ErrorToast

  /** The fetch on mount: a response replaces the list, a failure only shows an error. */
  function Loaded(s: AdminState, fetched: Http<seq<AdminOrder>>): (r: (AdminState, Option<Toast>))
    ensures fetched.Ok? ==> r == (s.(orders := fetched.data), None)
    ensures fetched.Err? ==> r == (s, Some(ErrorToast))
  {
    match fetched
    case Ok(os) => (s.(orders := os), None)
    case Err => (s, Some(ErrorToast))
  }

  /** The local `map` after a successful update: only the order with the id gets the status. */
  function WithStatus(orders: seq<AdminOrder>, id: string, status: string): (r: seq<AdminOrder>)
    ensures |r| == |orders|
    ensures forall i :: 0 <= i < |orders| ==>
      r[i] == if orders[i].order_id == id then orders[i].(status := status) else orders[i]
    decreases |orders|
  {
    if |orders| == 0 then []
    else
      var o := orders[0];
      [if o.order_id == id then o.(status := status) else o] + WithStatus(orders[1..], id, status)
  }

  /** Applying one update twice is applying it once. */
  lemma WithStatusIdempotent(orders: seq<AdminOrder>, id: string, status: string)
    ensures WithStatus(WithStatus(orders, id, status), id, status) == WithStatus(orders, id, status)
  {
  }

  /** `updateOrderStatus` as it starts: that order's button shows the spinner. */
  function BeginUpdate(s: AdminState, id: string): (r: AdminState)
    ensures r.loadingOrderId == Some(id) && r.orders == s.orders
  {
    s.(loadingOrderId := Some(id))
  }

  /** `updateOrderStatus` as it settles: apply the status on success, and clear the spinner either way. */
  function SettleUpdate(s: AdminState, id: string, status: string, put: Http<()>): (r: (AdminState, Toast))
    ensures r.0.loadingOrderId.None?
    ensures put.Ok? ==> r.0.orders == WithStatus(s.orders, id, status) && r.1 == SuccessToast
    ensures put.Err? ==> r.0.orders == s.orders && r.1 == ErrorToast
  {
    match put
    case Ok(_) => (AdminState(WithStatus(s.orders, id, status), None), SuccessToast)
    case Err => (AdminState(s.orders, None), ErrorToast)
  }

  /** An order's "Change Status" button is disabled while that order is being updated. */
  predicate ChangeDisabled(s: AdminState, id: string)
  {
    s.loadingOrderId == Some(id)
  }

  /** Only the order being updated is locked, and the lock is released however the update settles. */
  lemma LockedOnlyWhileUpdating(s: AdminState, id: string, other: string, status: string, put: Http<()>)
    ensures ChangeDisabled(BeginUpdate(s, id), other) <==> other == id
    ensures !ChangeDisabled(SettleUpdate(BeginUpdate(s, id), id, status, put).0, other)
  {
  }

  function Amount(o: AdminOrder): int { o.total_amount }
  function LineQuantity(i: AdminOrderItem): int { i.quantity }

  /** The inner `reduce`: the items of one order. */
  function OrderQuantity(o: AdminOrder): (r: int)
    ensures r == Sum(o.order_items, LineQuantity)
  {
    ReduceIsSum(o.order_items, 0, LineQuantity);
    Reduce(o.order_items, 0, LineQuantity)
  }

  /** `totalRevenue`. */
  function TotalRevenue(orders: seq<AdminOrder>): (r: int)
    ensures r == Sum(orders, Amount)
  {
    ReduceIsSum(orders, 0, Amount);
    Reduce(orders, 0, Amount)
  }

  /** `totalOrders`. */
  function TotalOrders(orders: seq<AdminOrder>): nat
  {
    |orders|
  }

  /** `totalItemsSold`: the quantities of every line of every order. */
  function TotalItemsSold(orders: seq<AdminOrder>): (r: int)
    ensures r == Sum(orders, OrderQuantity)
  {
    ReduceIsSum(orders, 0, OrderQuantity);
    Reduce(orders, 0, OrderQuantity)
  }

  /** A status update changes none of the three dashboard totals. */
  lemma {:induction false} UpdateKeepsTotals(orders: seq<AdminOrder>, id: string, status: string)
    ensures TotalRevenue(WithStatus(orders, id, status)) == TotalRevenue(orders)
    ensures TotalOrders(WithStatus(orders, id, status)) == TotalOrders(orders)
    ensures TotalItemsSold(WithStatus(orders, id, status)) == TotalItemsSold(orders)
    decreases |orders|
  {
    if |orders| > 0 {
      UpdateKeepsTotals(orders[1..], id, status);
      var r := WithStatus(orders, id, status);
      assert r[1..] == WithStatus(orders[1..], id, status);
    }
  }

  /**
   The dashboard's totals after the fetch on mount: those of the fetched list when it arrives,
   and the previous ones when it fails.
   */
  lemma LoadedTotals(s: AdminState, fetched: Http<seq<AdminOrder>>)
    ensures var after := Loaded(s, fetched).0.orders;
      fetched.Ok? ==>
        && TotalRevenue(after) == Sum(fetched.data, Amount)
        && TotalOrders(after) == |fetched.data|
        && TotalItemsSold(after) == Sum(fetched.data, OrderQuantity)
    ensures var after := Loaded(s, fetched).0.orders;
      fetched.Err? ==>
        && TotalRevenue(after) == TotalRevenue(s.orders)
        && TotalOrders(after) == TotalOrders(s.orders)
        && TotalItemsSold(after) == TotalItemsSold(s.orders)
  {
  }

  /** The totals of two lists of orders add up. */
  lemma TotalsAdd(a: seq<AdminOrder>, b: seq<AdminOrder>)
    ensures TotalRevenue(a + b) == TotalRevenue(a) + TotalRevenue(b)
    ensures TotalItemsSold(a + b) == TotalItemsSold(a) + TotalItemsSold(b)
  {
    SumConcat(a, b, Amount);
    SumConcat(a, b, OrderQuantity);
  }
}
