/**
 The diner's orders page: the list with its counters and status badges, the amount still to pay,
 and the checkout handshake in which payment success is recorded only once the server has
 verified the gateway's confirmation.
 */
module OrdersPage {
  import opened Outcomes
  import opened Seqs
  import opened OrderTypes
  import Expansion

  datatype Order = Order(
    order_id: string,
    cart_id: string,
    user_id: string,
    status: string,
    total_amount: int,
    created_at: string,
    updated_at: string,
    items: Option<seq<OrderItem>>)

  /** The gateway order handle the checkout endpoint returns. */
  datatype PaymentDetails = PaymentDetails(payment_id: string, razorpay_order_id: string, amount: int, currency: string)

  /** The signed confirmation the gateway hands to its success callback. */
  datatype GatewayResponse = GatewayResponse(
    razorpay_payment_id: string,
    razorpay_order_id: string,
    razorpay_signature: string)

  /** The body of the verification request. */
  datatype VerifyBody = VerifyBody(
    payment_id: string,
    razorpay_payment_id: string,
    razorpay_order_id: string,
    razorpay_signature: string)

  /** What the success banner shows. */
  datatype Receipt = Receipt(paymentId: string, orderId: string, amount: int)

  datatype OrdersState = OrdersState(
    orders: seq<Order>,
    loading: bool,
    expanded: Option<string>,
    checkingOut: bool,
    paymentSuccess: bool,
    receipt: Option<Receipt>,
    verifying: bool,
    gateways: multiset<PaymentDetails>,
    posted: multiset<VerifyBody>)

  /**
   The page as it mounts. Two fields are not React state but the callbacks still pending:
   `gateways` holds the checkout handles whose gateway was opened and has not reported a payment
   (each gateway's success handler closes over its own handle), and `posted` holds the
   verification requests sent and not yet answered (the `handlePaymentSuccess` calls awaiting).
   */
  const Initial: OrdersState :=
    OrdersState([], true, None, false, false, None, false, multiset{}, multiset{})

  /** Everything that can happen to the page: user clicks, settled requests, gateway callbacks. */
  datatype Event =
    | FetchStarted
    | FetchSettled(fetched: Http<Option<seq<Order>>>)
    | RowClicked(orderId: string)
    | PayClicked
    | CheckoutSettled(checkout: Http<PaymentDetails>, sdkLoaded: bool)
    | GatewayPaid(handle: PaymentDetails, response: GatewayResponse)
    | GatewayFailed
    | VerifySettled(verified: Http<()>, body: VerifyBody)
    | Dismissed

  /** What the page asks of the outside world. */
  datatype Effect = PostCheckout | OpenGateway(handle: PaymentDetails) | PostVerify(body: VerifyBody) | GetOrders | ErrorToast

  datatype Outcome = Outcome(state: OrdersState, effects: seq<Effect>)

  /** The verification request `handlePaymentSuccess` posts for a gateway confirmation. */
  function VerifyRequest(handle: PaymentDetails, response: GatewayResponse): VerifyBody
  {
    VerifyBody(handle.payment_id, response.razorpay_payment_id,
               response.razorpay_order_id, response.razorpay_signature)
  }

  predicate IsOpen(o: Order) { o.status != "completed" }
  predicate IsPending(o: Order) { o.status == "pending" }
  function Amount(o: Order): int { o.total_amount }

  /** `pendingOrdersTotal`: what every order not yet completed still costs. */
  function PendingTotal(orders: seq<Order>): (r: int)
    ensures r == SumWhere(orders, IsOpen, Amount)
  {
    var open := Filter(orders, IsOpen);
    ReduceIsSum(open, 0, Amount);
    SumFilter(orders, IsOpen, Amount);
    Reduce(open, 0, Amount)
  }

  /** When every order is completed nothing is left to pay. */
  lemma AllCompletedOwesNothing(orders: seq<Order>)
    requires forall i :: 0 <= i < |orders| ==> orders[i].status == "completed"
    ensures PendingTotal(orders) == 0
  {
  }

  /** The "Pending" counter, which counts only the status "pending". */
  function PendingCount(orders: seq<Order>): (r: nat)
    ensures r == Count(orders, IsPending)
    ensures r <= |orders|
    ensures r == 0 <==> forall o :: o in orders ==> !IsPending(o)
  {
    FilterLength(orders, IsPending);
    |Filter(orders, IsPending)|
  }

  datatype Colour = Green | Blue | Yellow

  /** The status badge: green for completed, blue for payment initiated, yellow for anything else. */
  function StatusBadge(status: string): (r: Colour)
    ensures r == Green <==> status == "completed"
    ensures r == Blue <==> status == "payment_initiated"
    ensures r == Yellow <==> status != "completed" && status != "payment_initiated"
  {
    if status == "completed" then Green
    else if status == "payment_initiated" then Blue
    else Yellow
  }

  /** The pay section is rendered once loading is over and something is left to pay. */
  predicate PaySectionShown(s: OrdersState)
  {
    !s.loading && PendingTotal(s.orders) > 0
  }

  /** The pay button is disabled while a checkout or a verification is under way. */
  predicate PayDisabled(s: OrdersState)
  {
    s.checkingOut || s.verifying
  }

  /**
   One step of the page. A click on a hidden or disabled button never reaches its handler, a
   checkout answer arrives only for the checkout a click started, a gateway reports a payment
   only for a handle a checkout opened it with, and a verification answer settles only the
   request that was posted for it; an event none of these could produce changes nothing.
   */
  function Step(s: OrdersState, e: Event): (r: Outcome)
    ensures e.FetchStarted? ==> r == Outcome(s.(loading := true), [GetOrders])
    ensures e.FetchSettled? && e.fetched.Ok? ==>
      r == Outcome(s.(orders := (if e.fetched.data.Some? then e.fetched.data.value else []), loading := false), [])
    ensures e.FetchSettled? && e.fetched.Err? ==> r == Outcome(s.(loading := false), [])
    ensures e.RowClicked? ==> r == Outcome(s.(expanded := Expansion.Toggle(s.expanded, e.orderId)), [])
    ensures e.PayClicked? && PaySectionShown(s) && !PayDisabled(s) ==>
      r == Outcome(s.(checkingOut := true), [PostCheckout])
    ensures e.PayClicked? && !(PaySectionShown(s) && !PayDisabled(s)) ==> r == Outcome(s, [])
    ensures e.CheckoutSettled? && !s.checkingOut ==> r == Outcome(s, [])
    ensures e.CheckoutSettled? && s.checkingOut && e.checkout.Ok? && e.sdkLoaded ==>
      r == Outcome(s.(checkingOut := false, gateways := s.gateways + multiset{e.checkout.data}),
                   [OpenGateway(e.checkout.data)])
    ensures e.CheckoutSettled? && s.checkingOut && !(e.checkout.Ok? && e.sdkLoaded) ==>
      r == Outcome(s.(checkingOut := false), [ErrorToast])
    ensures e.GatewayPaid? && e.handle !in s.gateways ==> r == Outcome(s, [])
    ensures e.GatewayPaid? && e.handle in s.gateways ==>
      var body := VerifyRequest(e.handle, e.response);
      && r == Outcome(s.(verifying := true, gateways := s.gateways - multiset{e.handle},
                         posted := s.posted + multiset{body}),
                      [PostVerify(body)])
      && body.payment_id == e.handle.payment_id
      && body.razorpay_payment_id == e.response.razorpay_payment_id
      && body.razorpay_order_id == e.response.razorpay_order_id
      && body.razorpay_signature == e.response.razorpay_signature
    ensures e.GatewayFailed? ==> r == Outcome(s, [ErrorToast])
    ensures e.VerifySettled? && e.body !in s.posted ==> r == Outcome(s, [])
    ensures e.VerifySettled? && e.body in s.posted && e.verified.Err? ==>
      r == Outcome(s.(verifying := false, posted := s.posted - multiset{e.body}), [ErrorToast])
    ensures e.VerifySettled? && e.body in s.posted && e.verified.Ok? ==>
      r == Outcome(s.(paymentSuccess := true,
                      receipt := Some(Receipt(e.body.razorpay_payment_id, e.body.razorpay_order_id,
                                              PendingTotal(s.orders))),
                      loading := true, verifying := false, posted := s.posted - multiset{e.body}),
                   [GetOrders])
    ensures e.Dismissed? ==> r == Outcome(s.(paymentSuccess := false), [])
  {
    match e
    case FetchStarted => Outcome(s.(loading := true), [GetOrders])
    case FetchSettled(fetched) =>
      (match fetched
       case Ok(data) =>
         Outcome(s.(orders := (match data case Some(os) => os case None => []), loading := false), [])
       case Err => Outcome(s.(loading := false), []))
    case RowClicked(id) => Outcome(s.(expanded := Expansion.Toggle(s.expanded, id)), [])
    case PayClicked =>
      if PaySectionShown(s) && !PayDisabled(s) then Outcome(s.(checkingOut := true), [PostCheckout])
      else Outcome(s, [])
    case CheckoutSettled(checkout, sdkLoaded) =>
      if !s.checkingOut then Outcome(s, [])
      else
        (match checkout
         case Ok(handle) =>
           if sdkLoaded then
             Outcome(s.(checkingOut := false, gateways := s.gateways + multiset{handle}), [OpenGateway(handle)])
           else
             Outcome(s.(checkingOut := false), [ErrorToast])
         case Err => Outcome(s.(checkingOut := false), [ErrorToast]))
    case GatewayPaid(handle, resp) =>
      if handle !in s.gateways then Outcome(s, [])
      else
        var body := VerifyRequest(handle, resp);
        Outcome(s.(verifying := true, gateways := s.gateways - multiset{handle},
                   posted := s.posted + multiset{body}),
                [PostVerify(body)])
    case GatewayFailed => Outcome(s, [ErrorToast])
    case VerifySettled(verified, body) =>
      if body !in s.posted then Outcome(s, [])
      else
        var rest := s.posted - multiset{body};
        (match verified
         case Ok(_) =>
           var receipt := Receipt(body.razorpay_payment_id, body.razorpay_order_id, PendingTotal(s.orders));
           Outcome(s.(paymentSuccess := true, receipt := Some(receipt), loading := true,
                      verifying := false, posted := rest),
                   [GetOrders])
         case Err => Outcome(s.(verifying := false, posted := rest), [ErrorToast]))
    case Dismissed => Outcome(s.(paymentSuccess := false), [])
  }

  /** The page after a sequence of events, oldest first. */
  function Run(s: OrdersState, events: seq<Event>): OrdersState
    decreases |events|
  {
    if |events| == 0 then s else Step(Run(s, events[..|events| - 1]), events[|events| - 1]).state
  }

  /** Running one more event is one more step. */
  lemma RunSnoc(s: OrdersState, events: seq<Event>, e: Event)
    ensures Run(s, events + [e]) == Step(Run(s, events), e).state
  {
    assert (events + [e])[..|events|] == events;
  }

  /** One step starts a checkout only when Pay is clicked on a shown, enabled button. */
  lemma StepStartsCheckoutOnlyOnClick(s: OrdersState, e: Event)
    requires !s.checkingOut && Step(s, e).state.checkingOut
    ensures e == PayClicked && PaySectionShown(s) && !PayDisabled(s)
  {
  }

  /** One step opens a gateway only for the handle the outstanding checkout returned. */
  lemma StepOpensOnlyForCheckout(s: OrdersState, e: Event, h: PaymentDetails)
    requires h in Step(s, e).state.gateways && h !in s.gateways
    ensures e == CheckoutSettled(Ok(h), true) && s.checkingOut
  {
  }

  /** One step adds to the awaiting requests only the one a gateway success posts for an opened handle. */
  lemma StepPostsOnlyForGateway(s: OrdersState, e: Event, b: VerifyBody)
    requires b in Step(s, e).state.posted && b !in s.posted
    ensures e.GatewayPaid? && e.handle in s.gateways && VerifyRequest(e.handle, e.response) == b
  {
  }

  /** One step that is not an accepted answer to an awaiting request keeps the receipt and sets no success. */
  lemma StepKeepsReceipt(s: OrdersState, e: Event)
    requires !(e.VerifySettled? && e.verified.Ok? && e.body in s.posted)
    ensures Step(s, e).state.receipt == s.receipt
    ensures Step(s, e).state.paymentSuccess ==> s.paymentSuccess
  {
  }

  /** An accepted answer to an awaiting request shows that request's ids on the receipt. */
  lemma StepAcceptsVerification(s: OrdersState, e: Event)
    requires e.VerifySettled? && e.verified.Ok? && e.body in s.posted
    ensures Step(s, e).state.receipt.Some?
    ensures Step(s, e).state.receipt.value.paymentId == e.body.razorpay_payment_id
    ensures Step(s, e).state.receipt.value.orderId == e.body.razorpay_order_id
  {
  }

  /** The event at `m` is a Pay click that reached `handleCheckout`: the section was shown and enabled. */
  predicate ClickedAt(s: OrdersState, events: seq<Event>, m: int)
  {
    && 0 <= m < |events|
    && events[m] == PayClicked
    && PaySectionShown(Run(s, events[..m]))
    && !PayDisabled(Run(s, events[..m]))
  }

  /** After the click at `m`, the checkout at `k` returned the handle `h` and opened the gateway with it. */
  predicate CheckedOutAt(s: OrdersState, events: seq<Event>, m: int, k: int, h: PaymentDetails)
  {
    && 0 <= m < k < |events|
    && ClickedAt(s, events, m)
    && events[k] == CheckoutSettled(Ok(h), true)
  }

  /** The gateway success at `i`, opened by the checkout at `k` that the click at `m` started, posted `b`. */
  predicate PostedAt(s: OrdersState, events: seq<Event>, m: int, k: int, i: int, b: VerifyBody)
  {
    && 0 <= k < i < |events|
    && events[i].GatewayPaid?
    && CheckedOutAt(s, events, m, k, events[i].handle)
    && VerifyRequest(events[i].handle, events[i].response) == b
  }

  /** A click found in a prefix of the events is a click of the whole sequence. */
  lemma ClickSurvives(s: OrdersState, events: seq<Event>, n: int, m: int)
    requires 0 <= n <= |events| && ClickedAt(s, events[..n], m)
    ensures ClickedAt(s, events, m)
  {
    assert events[..n][..m] == events[..m];
  }

  /** A gateway success found in a prefix of the events, with its checkout and click, stays one. */
  lemma PostSurvives(s: OrdersState, events: seq<Event>, n: int, m: int, k: int, i: int, b: VerifyBody)
    requires 0 <= n <= |events| && PostedAt(s, events[..n], m, k, i, b)
    ensures PostedAt(s, events, m, k, i, b)
  {
    ClickSurvives(s, events, n, m);
    assert events[k] == events[..n][k] && events[i] == events[..n][i];
  }

  /** A checkout is outstanding only after a Pay click on a shown, enabled button. */
  lemma {:induction false} CheckoutCameFromClick(s: OrdersState, events: seq<Event>)
    requires !s.checkingOut && Run(s, events).checkingOut
    ensures exists m :: ClickedAt(s, events, m)
    decreases |events|
  {
    if |events| > 0 {
      var n := |events| - 1;
      var prefix := events[..n];
      var before := Run(s, prefix);
      assert Run(s, events) == Step(before, events[n]).state;
      if before.checkingOut {
        CheckoutCameFromClick(s, prefix);
        var m :| ClickedAt(s, prefix, m);
        ClickSurvives(s, events, n, m);
      } else {
        StepStartsCheckoutOnlyOnClick(before, events[n]);
        assert ClickedAt(s, events, n);
      }
    }
  }

  /** Every gateway still open was opened by a checkout that a Pay click started, with that handle. */
  lemma {:induction false} OpenedCameFromCheckout(s: OrdersState, events: seq<Event>, h: PaymentDetails)
    requires !s.checkingOut && s.gateways == multiset{}
    requires h in Run(s, events).gateways
    ensures exists m, k :: CheckedOutAt(s, events, m, k, h)
    decreases |events|
  {
    if |events| > 0 {
      var n := |events| - 1;
      var prefix := events[..n];
      var before := Run(s, prefix);
      assert Run(s, events) == Step(before, events[n]).state;
      if h in before.gateways {
        OpenedCameFromCheckout(s, prefix, h);
        var m, k :| CheckedOutAt(s, prefix, m, k, h);
        ClickSurvives(s, events, n, m);
        assert events[k] == prefix[k];
        assert CheckedOutAt(s, events, m, k, h);
      } else {
        StepOpensOnlyForCheckout(before, events[n], h);
        CheckoutCameFromClick(s, prefix);
        var m :| ClickedAt(s, prefix, m);
        ClickSurvives(s, events, n, m);
        assert CheckedOutAt(s, events, m, n, h);
      }
    }
  }

  /** Every verification request still awaiting an answer was posted for a gateway a clicked checkout opened. */
  lemma {:induction false} PostedCameFromGateway(s: OrdersState, events: seq<Event>, b: VerifyBody)
    requires !s.checkingOut && s.gateways == multiset{} && s.posted == multiset{}
    requires b in Run(s, events).posted
    ensures exists m, k, i :: PostedAt(s, events, m, k, i, b)
    decreases |events|
  {
    if |events| > 0 {
      var n := |events| - 1;
      var prefix := events[..n];
      var before := Run(s, prefix);
      assert Run(s, events) == Step(before, events[n]).state;
      if b in before.posted {
        PostedCameFromGateway(s, prefix, b);
        var m, k, i :| PostedAt(s, prefix, m, k, i, b);
        PostSurvives(s, events, n, m, k, i, b);
      } else {
        StepPostsOnlyForGateway(before, events[n], b);
        OpenedCameFromCheckout(s, prefix, events[n].handle);
        var m, k :| CheckedOutAt(s, prefix, m, k, events[n].handle);
        ClickSurvives(s, events, n, m);
        assert events[k] == prefix[k];
        assert PostedAt(s, events, m, k, n, b);
      }
    }
  }

  /**
   The click at `m` started the checkout at `k`, which opened the gateway whose success at `i`
   posted the very request whose successful answer arrived at `j`.
   */
  predicate VerifiedAt(s: OrdersState, events: seq<Event>, m: int, k: int, i: int, j: int)
  {
    && 0 <= i < j < |events|
    && events[j].VerifySettled? && events[j].verified.Ok?
    && PostedAt(s, events, m, k, i, events[j].body)
  }

  /** The receipt `st` shows the payment and order ids of the request answered at `j`. */
  predicate ReceiptFor(st: OrdersState, events: seq<Event>, j: int)
    requires 0 <= j < |events| && events[j].VerifySettled?
  {
    && st.receipt.Some?
    && st.receipt.value.paymentId == events[j].body.razorpay_payment_id
    && st.receipt.value.orderId == events[j].body.razorpay_order_id
  }

  /** The last event is an accepted answer to a request still awaiting it. */
  predicate AcceptedLast(s: OrdersState, events: seq<Event>)
    requires |events| > 0
  {
    var e := events[|events| - 1];
    e.VerifySettled? && e.verified.Ok? && e.body in Run(s, events[..|events| - 1]).posted
  }

  /** When the last event is an accepted answer, it answers an earlier gateway success and fills the receipt. */
  lemma LastAnswerVerified(s: OrdersState, events: seq<Event>)
    requires !s.checkingOut && s.gateways == multiset{} && s.posted == multiset{}
    requires |events| > 0 && AcceptedLast(s, events)
    ensures exists m, k, i, j :: VerifiedAt(s, events, m, k, i, j) && ReceiptFor(Run(s, events), events, j)
  {
    var n := |events| - 1;
    var prefix := events[..n];
    var e := events[n];
    assert Run(s, events) == Step(Run(s, prefix), e).state;
    StepAcceptsVerification(Run(s, prefix), e);
    PostedCameFromGateway(s, prefix, e.body);
    var m, k, i :| PostedAt(s, prefix, m, k, i, e.body);
    PostSurvives(s, events, n, m, k, i, e.body);
    assert VerifiedAt(s, events, m, k, i, n) && ReceiptFor(Run(s, events), events, n);
  }

  /** Any other last event keeps the receipt and cannot be the one that sets success. */
  lemma OtherLastKeepsReceipt(s: OrdersState, events: seq<Event>)
    requires |events| > 0 && !AcceptedLast(s, events)
    ensures Run(s, events).receipt == Run(s, events[..|events| - 1]).receipt
    ensures Run(s, events).paymentSuccess ==> Run(s, events[..|events| - 1]).paymentSuccess
  {
    var n := |events| - 1;
    assert Run(s, events) == Step(Run(s, events[..n]), events[n]).state;
    StepKeepsReceipt(Run(s, events[..n]), events[n]);
  }

  /** A verified answer found in a prefix of the events is one of the whole sequence. */
  lemma VerifiedSurvives(s: OrdersState, events: seq<Event>, n: int, m: int, k: int, i: int, j: int)
    requires 0 <= n <= |events| && VerifiedAt(s, events[..n], m, k, i, j)
    ensures VerifiedAt(s, events, m, k, i, j)
    ensures events[j] == events[..n][j]
  {
    PostSurvives(s, events, n, m, k, i, events[..n][j].body);
  }

  /** A receipt found before a last event that is not an accepted answer is still shown after it. */
  lemma ReceiptSurvives(s: OrdersState, events: seq<Event>, j: int)
    requires |events| > 0 && !AcceptedLast(s, events)
    requires 0 <= j < |events| - 1 && events[j].VerifySettled?
    requires ReceiptFor(Run(s, events[..|events| - 1]), events[..|events| - 1], j)
    ensures ReceiptFor(Run(s, events), events, j)
  {
    OtherLastKeepsReceipt(s, events);
  }

  /** A verified answer found before the last event still stands when that event keeps the receipt. */
  lemma EarlierVerificationStands(s: OrdersState, events: seq<Event>, m: int, k: int, i: int, j: int)
    requires |events| > 0 && !AcceptedLast(s, events)
    requires var prefix := events[..|events| - 1];
      VerifiedAt(s, prefix, m, k, i, j) && ReceiptFor(Run(s, prefix), prefix, j)
    ensures VerifiedAt(s, events, m, k, i, j) && ReceiptFor(Run(s, events), events, j)
  {
    VerifiedSurvives(s, events, |events| - 1, m, k, i, j);
    ReceiptSurvives(s, events, j);
  }

  /**
   Whatever happens, success is shown only after a Pay click on a shown, enabled button started
   a checkout, that checkout opened a gateway, the gateway reported a payment, and the server
   accepted the verification request posted for it; the receipt shows that request's payment and
   order ids. No checkout answer without a click, no gateway callback for a handle no checkout
   returned, and no answer to a request never sent marks the payment done.
   */
  lemma {:induction false} SuccessNeedsVerification(s: OrdersState, events: seq<Event>)
    requires !s.checkingOut && s.gateways == multiset{} && s.posted == multiset{}
    requires !s.paymentSuccess && Run(s, events).paymentSuccess
    ensures exists m, k, i, j :: VerifiedAt(s, events, m, k, i, j) && ReceiptFor(Run(s, events), events, j)
    decreases |events|
  {
    if |events| > 0 {
      if AcceptedLast(s, events) {
        LastAnswerVerified(s, events);
      } else {
        var prefix := events[..|events| - 1];
        OtherLastKeepsReceipt(s, events);
        SuccessNeedsVerification(s, prefix);
        var m, k, i, j :| VerifiedAt(s, prefix, m, k, i, j) && ReceiptFor(Run(s, prefix), prefix, j);
        EarlierVerificationStands(s, events, m, k, i, j);
      }
    }
  }

  /** A page that shows a payment as done has seen a Pay click. */
  lemma SuccessHasClick(s: OrdersState, events: seq<Event>)
    requires !s.checkingOut && s.gateways == multiset{} && s.posted == multiset{}
    requires !s.paymentSuccess && Run(s, events).paymentSuccess
    ensures PayClicked in events
  {
    SuccessNeedsVerification(s, events);
    var m, k, i, j :| VerifiedAt(s, events, m, k, i, j) && ReceiptFor(Run(s, events), events, j);
    assert events[m] == PayClicked;
  }

  /** Without a Pay click the page never shows a payment as done. */
  lemma NoPayClickNoSuccess(s: OrdersState, events: seq<Event>)
    requires !s.checkingOut && s.gateways == multiset{} && s.posted == multiset{} && !s.paymentSuccess
    requires PayClicked !in events
    ensures !Run(s, events).paymentSuccess
  {
    if Run(s, events).paymentSuccess {
      SuccessHasClick(s, events);
    }
  }

  /** A checkout answer with no checkout outstanding changes nothing and opens no gateway. */
  lemma UnrequestedCheckoutIsIgnored(s: OrdersState, checkout: Http<PaymentDetails>, sdkLoaded: bool)
    requires !s.checkingOut
    ensures Run(s, [CheckoutSettled(checkout, sdkLoaded)]) == s
  {
    RunSnoc(s, [], CheckoutSettled(checkout, sdkLoaded));
    assert [] + [CheckoutSettled(checkout, sdkLoaded)] == [CheckoutSettled(checkout, sdkLoaded)];
  }

  /** One order of 5.00 still to pay. */
  const PendingOrder: Order := Order("o1", "c1", "u1", "pending", 500, "", "", None)

  /** The loaded page with that order and nothing under way. */
  const Waiting: OrdersState :=
    OrdersState([PendingOrder], false, None, false, false, None, false, multiset{}, multiset{})

  /** The waiting page owes the pending order's amount, so its pay button is live. */
  lemma WaitingOwesOrder()
    ensures PendingTotal(Waiting.orders) == 500
    ensures PaySectionShown(Waiting) && !PayDisabled(Waiting)
  {
    assert IsOpen(PendingOrder) by {
      assert PendingOrder.status[0] != "completed"[0];
    }
    assert Waiting.orders[1..] == [];
    assert SumWhere(Waiting.orders, IsOpen, Amount) == 500 + SumWhere(Waiting.orders[1..], IsOpen, Amount);
  }

  /** The page after Pay was clicked and the checkout returned `handle` with the gateway script loaded. */
  lemma CheckoutOpensGateway(handle: PaymentDetails)
    ensures Run(Waiting, [PayClicked, CheckoutSettled(Ok(handle), true)])
         == Waiting.(gateways := multiset{handle})
  {
    WaitingOwesOrder();
    var clicked := Waiting.(checkingOut := true);
    assert Step(Waiting, PayClicked).state == clicked;
    RunSnoc(Waiting, [], PayClicked);
    assert [] + [PayClicked] == [PayClicked];
    RunSnoc(Waiting, [PayClicked], CheckoutSettled(Ok(handle), true));
    assert [PayClicked] + [CheckoutSettled(Ok(handle), true)] == [PayClicked, CheckoutSettled(Ok(handle), true)];
  }

  /** Pay, a checkout, the gateway's success for that checkout, and then the server's answer. */
  function Session(handle: PaymentDetails, resp: GatewayResponse, verified: Http<()>): seq<Event>
  {
    [PayClicked, CheckoutSettled(Ok(handle), true), GatewayPaid(handle, resp),
     VerifySettled(verified, VerifyRequest(handle, resp))]
  }

  /** The page once the gateway's success for the opened checkout has posted its verification. */
  lemma GatewayPostsVerification(handle: PaymentDetails, resp: GatewayResponse, verified: Http<()>)
    ensures Run(Waiting, Session(handle, resp, verified)[..3])
         == Waiting.(verifying := true, posted := multiset{VerifyRequest(handle, resp)})
  {
    var es := Session(handle, resp, verified);
    CheckoutOpensGateway(handle);
    assert es[..3] == es[..2] + [GatewayPaid(handle, resp)];
    assert es[..2] == [PayClicked, CheckoutSettled(Ok(handle), true)];
    RunSnoc(Waiting, es[..2], GatewayPaid(handle, resp));
  }

  /** A full session the server accepts shows success with the gateway's ids and the amount owed. */
  lemma AcceptedVerificationShowsReceipt(handle: PaymentDetails, resp: GatewayResponse)
    ensures var after := Run(Waiting, Session(handle, resp, Ok(())));
      && after.paymentSuccess && !after.verifying && after.posted == multiset{}
      && after.receipt == Some(Receipt(resp.razorpay_payment_id, resp.razorpay_order_id, 500))
  {
    var es := Session(handle, resp, Ok(()));
    GatewayPostsVerification(handle, resp, Ok(()));
    assert es == es[..3] + [es[3]];
    RunSnoc(Waiting, es[..3], es[3]);
    WaitingOwesOrder();
  }

  /** A full session in which the server rejects the confirmation shows no success. */
  lemma RejectedVerificationShowsNoSuccess(handle: PaymentDetails, resp: GatewayResponse)
    ensures var after := Run(Waiting, Session(handle, resp, Err));
      !after.paymentSuccess && !after.verifying && after.posted == multiset{} && after.receipt.None?
  {
    var es := Session(handle, resp, Err);
    GatewayPostsVerification(handle, resp, Err);
    assert es == es[..3] + [es[3]];
    RunSnoc(Waiting, es[..3], es[3]);
  }

  /** A gateway success reported for a handle other than the one the checkout opened posts nothing. */
  lemma ForeignHandleIsIgnored(handle: PaymentDetails, other: PaymentDetails, resp: GatewayResponse)
    requires other != handle
    ensures var es := [PayClicked, CheckoutSettled(Ok(handle), true), GatewayPaid(other, resp)];
      Run(Waiting, es) == Waiting.(gateways := multiset{handle})
  {
    var es := [PayClicked, CheckoutSettled(Ok(handle), true), GatewayPaid(other, resp)];
    CheckoutOpensGateway(handle);
    assert es == [PayClicked, CheckoutSettled(Ok(handle), true)] + [GatewayPaid(other, resp)];
    RunSnoc(Waiting, [PayClicked, CheckoutSettled(Ok(handle), true)], GatewayPaid(other, resp));
  }
}
