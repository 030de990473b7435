/**
 The bottom navigation bar: when it is shown, which tab is active, and the cart badge it reads
 from the cached cart snapshot.
 */
module Navbar {
  import opened Outcomes
  import opened Seqs
  import opened Text
  import opened CartTypes
  import opened LocalStore
  import CartContext

  /** The bar renders nothing on admin and table-joining paths. */
  function Visible(path: string): (r: bool)
    ensures r <==> !(exists i :: OccursAt(path, "/admin", i)) && !(exists i :: OccursAt(path, "/table", i))
  {
    IncludesIffOccurs(path, "/admin");
    IncludesIffOccurs(path, "/table");
    !(Includes(path, "/admin") || Includes(path, "/table"))
  }

  /** The `quantity` field of a stored element, if it has one. */
  function QuantityField(e: Entry): Option<int>
  {
    match e
    case CartLine(line) => Some(line.quantity)
    case MenuLine(_) => None
    case OtherObject(q) => q
    case NullValue => None
  }

  /** `item.quantity || 0`: a missing quantity reads as 0 (and 0 is the only falsy integer). */
  function QuantityOrZero(e: Entry): int
  {
    match QuantityField(e)
    case None => 0
    case Some(q) => q
  }

  /**
   The `reduce` over stored elements. Reading `quantity` of a null element throws, which
   aborts the fold; that is `None`.
   */
  function SumQuantities(es: seq<Entry>, acc: int): (r: Option<int>)
    ensures r.None? <==> NullValue in es
    ensures r.Some? ==> r.value == acc + Sum(es, QuantityOrZero)
    decreases |es|
  {
    if |es| == 0 then Some(acc)
    else if es[0] == NullValue then None
    else
      assert es == [es[0]] + es[1..];
      SumQuantities(es[1..], acc + QuantityOrZero(es[0]))
  }

  /** `getCartItemCount` applied to what the snapshot key holds: every failure counts as 0. */
  function CountStored(v: Stored): (r: int)
    ensures !v.List? ==> r == 0
    ensures v.List? && NullValue in v.entries ==> r == 0
    ensures v.List? && NullValue !in v.entries ==> r == Sum(v.entries, QuantityOrZero)
  {
    match v
    case List(es) =>
      (match SumQuantities(es, 0)
       case None => 0
       case Some(n) => n)
    case _ => 0
  }

  /** The count the bar shows, read from the `cartData` key. */
  function CartItemCount(st: Storage): int
  {
    CountStored(Get(st, CartDataKey))
  }

  /** The badge text: absent unless the count is positive, capped at "99+". */
  function BadgeLabel(count: int): (r: Option<string>)
    ensures r.Some? <==> count > 0
    ensures r == Some("99+") <==> count > 99
    ensures 0 < count <= 99 ==> IsDecimal(r.value) && ParseDecimal(r.value) == count
  {
    if count <= 0 then None
    else if count > 99 then Some("99+")
    else
      DecimalRoundTrip(count);
      Some(Decimal(count))
  }

  predicate HomeActive(path: string) { path == "/" }
  predicate MenuActive(path: string) { path == "/menu" || StartsWith(path, "/menu/") }
  predicate CartActive(path: string) { path == "/cart" }
  predicate OrdersActive(path: string) { path == "/orders" }

  /** No path highlights two tabs. */
  lemma AtMostOneTabActive(path: string)
    ensures !(HomeActive(path) && MenuActive(path))
    ensures !(HomeActive(path) && CartActive(path))
    ensures !(HomeActive(path) && OrdersActive(path))
    ensures !(MenuActive(path) && CartActive(path))
    ensures !(MenuActive(path) && OrdersActive(path))
    ensures !(CartActive(path) && OrdersActive(path))
  {
    if MenuActive(path) && path != "/menu" {
      assert path[..6] == "/menu/";
      assert path[1] == 'm';
    }
  }

  /** The menu tab is active on the menu page and every page below it, and nowhere else. */
  lemma MenuTabPaths(rest: string)
    ensures MenuActive("/menu")
    ensures MenuActive("/menu/" + rest)
    ensures !MenuActive("/menus")
  {
    assert ("/menu/" + rest)[..6] == "/menu/";
    assert "/menus"[5] == 's';
  }

  /** Summing the snapshot of a cart gives the cart's item count. */
  lemma {:induction false} SnapshotSum(cart: seq<CartItem>)
    ensures Sum(CartContext.Entries(cart), QuantityOrZero) == Sum(cart, Quantity)
    decreases |cart|
  {
    if |cart| > 0 {
      SnapshotSum(cart[1..]);
      assert CartContext.Entries(cart)[1..] == CartContext.Entries(cart[1..]);
    }
  }

  /**
   After any consistent provider state with a cart, the badge reads back exactly the context's
   item count: the snapshot round-trips through local storage.
   */
  lemma BadgeReadsContextCount(s: CartContext.ContextState)
    requires CartContext.Consistent(s) && s.cart.Some?
    ensures CartItemCount(s.storage) == s.totalItems
  {
    SnapshotSum(s.cart.value);
    var es := CartContext.Entries(s.cart.value);
    assert NullValue !in es;
  }
}
