/**
 The cart page: loading the table's cart, forwarding quantity changes with a refetch, choosing
 between the spinner, the empty notice and the listing, and the subtotal.
 */
module CartPage {
  import opened Outcomes
  import opened Seqs
  import opened CartTypes
  import opened CartLineView

  datatype PageState = PageState(cart: Option<CartResponse>, loading: bool)

  /** Before the first fetch settles: no cart, spinner shown. */
  const Initial: PageState := PageState(None, true)

  /** The requests the page sends. */
  datatype Request =
    | PatchCart(item_id: string, quantity: int, user_id: seq<string>)
    | GetCart

  /** `fetchCart`: keep the first cart of a non-empty answer; anything else keeps the old cart. */
  function FetchCart(s: PageState, outcome: Http<seq<CartResponse>>): (r: PageState)
    ensures !r.loading
    ensures outcome.Ok? && |outcome.data| > 0 ==> r.cart == Some(outcome.data[0])
    ensures outcome.Err? || |outcome.data| == 0 ==> r.cart == s.cart
  {
    match outcome
    case Ok(carts) => if |carts| > 0 then PageState(Some(carts[0]), false) else s.(loading := false)
    case Err => s.(loading := false)
  }

  /**
   What one call of `updateQuantity` does: the requests it sends and how its promise settles.
   The call changes no page state itself; the refetch it starts is not awaited and settles later,
   through `FetchCart`.
   */
  datatype Update = Update(requests: seq<Request>, settled: Settled)

  /**
   `updateQuantity(item, newQuantity)`: a negative quantity is dropped; any other, zero included,
   is sent with the item's own ids and, if the PATCH succeeds, followed by a refetch.
   */
  function UpdateQuantity(item: CartItem, newQuantity: int, patch: Http<()>): (r: Update)
    ensures r.settled == Resolved
    ensures newQuantity < 0 ==> r.requests == []
    ensures newQuantity >= 0 ==>
      |r.requests| > 0 && r.requests[0] == PatchCart(item.item_id, newQuantity, item.user_id)
    ensures newQuantity >= 0 && patch.Ok? ==> r.requests == [r.requests[0], GetCart]
    ensures newQuantity >= 0 && patch.Err? ==> r.requests == [r.requests[0]]
    ensures GetCart in r.requests <==> newQuantity >= 0 && patch.Ok?
  {
    if newQuantity < 0 then Update([], Resolved)
    else
      var sent := PatchCart(item.item_id, newQuantity, item.user_id);
      match patch
      case Ok(_) => Update([sent, GetCart], Resolved)
      case Err => Update([sent], Resolved)
  }

  /** One line's contribution to the subtotal. */
  function LineAmount(i: CartItem): int
  {
    i.price * i.quantity
  }

  /** The `reduce` that computes the subtotal. */
  function Subtotal(items: seq<CartItem>): (r: int)
    ensures r == Sum(items, LineAmount)
  {
    ReduceIsSum(items, 0, LineAmount);
    Reduce(items, 0, LineAmount)
  }

  /** The subtotal of two lists of lines is the sum of their subtotals. */
  lemma SubtotalConcat(a: seq<CartItem>, b: seq<CartItem>)
    ensures Subtotal(a + b) == Subtotal(a) + Subtotal(b)
  {
    SumConcat(a, b, LineAmount);
  }

  /** What the page renders. `Broken` is the render throwing a TypeError. */
  datatype Screen = Spinner | EmptyNotice | Broken | Listing(items: seq<CartItem>, subtotal: int)

  /** The render as written: it reads `cart.items.length` even when `items` is null. */
  function ViewAsWritten(s: PageState): Screen
  {
    if s.loading then Spinner
    else if s.cart.None? then EmptyNotice
    else match s.cart.value.items
      case None => Broken
      case Some(items) => if |items| == 0 then EmptyNotice else Listing(items, Subtotal(items))
  }

  /** A cart whose `items` is null, which the cart type declaration allows. */
  const NullItemsPage: PageState := PageState(Some(CartResponse("c", None, "", 0)), false)

  /** The render as written throws on a loaded cart whose `items` is null. */
  lemma NullItemsBreakAsWritten()
    ensures ViewAsWritten(NullItemsPage) == Broken
  {
  }

  /** No lines at all: no cart, null items or an empty list. */
  predicate HasNoLines(s: PageState)
  {
    s.cart.None? || s.cart.value.items.None? || |s.cart.value.items.value| == 0
  }

  /** The render with null items read as an empty cart. */
  function View(s: PageState): (r: Screen)
    ensures r != Broken
    ensures r == Spinner <==> s.loading
    ensures r == EmptyNotice <==> !s.loading && HasNoLines(s)
    ensures r.Listing? ==>
      && s.cart.Some? && s.cart.value.items == Some(r.items) && |r.items| > 0
      && r.subtotal == Sum(r.items, LineAmount)
  {
    if s.loading then Spinner
    else if HasNoLines(s) then EmptyNotice
    else Listing(s.cart.value.items.value, Subtotal(s.cart.value.items.value))
  }

  /** The two renders differ only on a loaded cart with null items. */
  lemma ViewMatchesAsWritten(s: PageState)
    ensures ViewAsWritten(s) == View(s) <==> s.loading || s.cart.None? || s.cart.value.items.Some?
  {
  }

  /**
   What the page shows once a fetch settles: the first cart's lines with their sum, the empty
   notice for a first cart without lines, and otherwise what the previous cart showed.
   */
  lemma FetchedCartIsShown(s: PageState, outcome: Http<seq<CartResponse>>)
    ensures outcome.Ok? && |outcome.data| > 0 && outcome.data[0].items.Some?
            && |outcome.data[0].items.value| > 0 ==>
      var items := outcome.data[0].items.value;
      View(FetchCart(s, outcome)) == Listing(items, Sum(items, LineAmount))
    ensures outcome.Ok? && |outcome.data| > 0
            && (outcome.data[0].items.None? || |outcome.data[0].items.value| == 0) ==>
      View(FetchCart(s, outcome)) == EmptyNotice
    ensures outcome.Err? || |outcome.data| == 0 ==>
      View(FetchCart(s, outcome)) == View(s.(loading := false))
  {
  }

  /**
   The page's `updateQuantity` never rejects, so the line component's error toast cannot fire:
   a failed PATCH still shows a success notice, and no refetch is started.
   */
  lemma FailedPatchStillNotifiesSuccess(item: CartItem, line: CartLine, b: Button)
    requires line.quantity == item.quantity
    ensures var n := Requested(line, b);
      var u := UpdateQuantity(item, n, Err);
      && HandleUpdate(line, n, u.settled) != FailedNotice
      && (b == Remove ==> HandleUpdate(line, n, u.settled) == RemovedNotice)
      && (b == Plus && line.quantity != -1 ==> HandleUpdate(line, n, u.settled) == AddedNotice)
      && (b == Minus && line.quantity != 1 ==> HandleUpdate(line, n, u.settled) == UpdatedNotice)
      && GetCart !in u.requests
  {
  }

  /** Minus on a zero quantity requests -1: nothing is sent, yet the update notice is shown. */
  lemma MinusAtZeroNotifiesWithoutRequest(item: CartItem, line: CartLine, patch: Http<()>)
    requires line.quantity == 0 && item.quantity == 0
    ensures var n := Requested(line, Minus);
      var u := UpdateQuantity(item, n, patch);
      && u.requests == []
      && HandleUpdate(line, n, u.settled) == UpdatedNotice
  {
  }

  /** Two lines at 5.00 x 2 and 3.00 x 1, in minor units. */
  const LineA: CartItem := CartItem("A", "a", 500, 2, ["u1"], ["x"], "")
  const LineB: CartItem := CartItem("B", "b", 300, 1, ["u2"], ["y"], "")

  /** Removing line B, then the refetch answering with only line A, drops the subtotal from 13.00 to 10.00. */
  lemma RemoveLineScenario()
    ensures View(PageState(Some(CartResponse("c", Some([LineA, LineB]), "", 0)), false)).subtotal == 1300
    ensures var before := PageState(Some(CartResponse("c", Some([LineA, LineB]), "", 0)), false);
      var u := UpdateQuantity(LineB, 0, Ok(()));
      && u.requests == [PatchCart("B", 0, ["u2"]), GetCart]
      && View(FetchCart(before, Ok([CartResponse("c", Some([LineA]), "", 0)]))).subtotal == 1000
  {
    assert [LineA, LineB][1..] == [LineB];
    assert [LineB][1..] == [];
    assert [LineA][1..] == [];
    assert Sum([LineA], LineAmount) == LineAmount(LineA) + Sum([], LineAmount) == 1000;
    assert Sum([LineB], LineAmount) == LineAmount(LineB) + Sum([], LineAmount) == 300;
    assert Sum([LineA, LineB], LineAmount) == LineAmount(LineA) + Sum([LineB], LineAmount) == 1300;
  }
}
