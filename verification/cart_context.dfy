/**
 The cart context shared by every page: it refreshes the table's cart from the server, derives
 the item count, and caches the cart in local storage for the navbar.
 */
module CartContext {
  import opened Outcomes
  import opened Seqs
  import opened CartTypes
  import opened LocalStore

  /** The provider's state: the cart (null until a refresh succeeds), the item count, and storage. */
  datatype ContextState = ContextState(cart: Option<seq<CartItem>>, totalItems: int, storage: Storage)

  /** The provider when it mounts: no cart and a count of 0; storage is whatever the browser holds. */
  function Mount(storage: Storage): (r: ContextState)
    ensures r.cart.None? && r.totalItems == 0 && r.storage == storage
  {
    ContextState(None, 0, storage)
  }

  /** The cart as it is written to the snapshot: one array element per line, in order. */
  function Entries(cart: seq<CartItem>): (r: seq<Entry>)
    ensures |r| == |cart|
    ensures forall i :: 0 <= i < |cart| ==> r[i] == CartLine(cart[i])
  {
    seq(|cart|, i requires 0 <= i < |cart| => CartLine(cart[i]))
  }

  /** The `reduce` over line quantities. */
  function ItemCount(cart: seq<CartItem>): (r: int)
    ensures r == Sum(cart, Quantity)
  {
    ReduceIsSum(cart, 0, Quantity);
    Reduce(cart, 0, Quantity)
  }

  /**
   The effect that runs whenever the cart changes: a non-null cart (an empty array included)
   sets the count and overwrites the snapshot; a null cart changes nothing.
   */
  function Sync(s: ContextState): (r: ContextState)
    ensures r.cart == s.cart
    ensures s.cart.Some? ==> r.totalItems == Sum(s.cart.value, Quantity)
    ensures s.cart.Some? ==> Get(r.storage, CartDataKey) == List(Entries(s.cart.value))
    ensures s.cart.Some? ==> forall k :: k != CartDataKey ==> Get(r.storage, k) == Get(s.storage, k)
    ensures s.cart.None? ==> r == s
  {
    match s.cart
    case None => s
    case Some(c) => ContextState(s.cart, ItemCount(c), Put(s.storage, CartDataKey, List(Entries(c))))
  }

  /** `setCart(c)` followed by the effect it triggers. */
  function SetCart(s: ContextState, c: Option<seq<CartItem>>): ContextState
  {
    Sync(s.(cart := c))
  }

  /** `refreshCart`: a successful fetch replaces the cart wholesale, a failed one changes nothing. */
  function Refresh(s: ContextState, outcome: Http<Option<seq<CartItem>>>): (r: ContextState)
    ensures outcome.Ok? ==> r.cart == outcome.data
    ensures outcome.Ok? && outcome.data.Some? ==> r.totalItems == Sum(outcome.data.value, Quantity)
    ensures outcome.Ok? && outcome.data.None? ==> r.totalItems == s.totalItems && r.storage == s.storage
    ensures outcome.Err? ==> r == s
  {
    match outcome
    case Ok(data) => SetCart(s, data)
    case Err => s
  }

  /** The count and the snapshot agree with a non-null cart. */
  predicate Consistent(s: ContextState)
  {
    s.cart.Some? ==>
      s.totalItems == Sum(s.cart.value, Quantity) && Get(s.storage, CartDataKey) == List(Entries(s.cart.value))
  }

  /**
   The provider hands `setCart` to every consumer: whatever cart a consumer sets, from whatever
   state, the effect that follows leaves the count and the snapshot agreeing with it.
   */
  lemma SetCartKeepsConsistent(s: ContextState, c: Option<seq<CartItem>>)
    ensures SetCart(s, c).cart == c
    ensures Consistent(SetCart(s, c))
  {
  }

  /** Every state the provider reaches by mounting and refreshing is consistent. */
  lemma {:induction false} RefreshesKeepConsistent(storage: Storage, outcomes: seq<Http<Option<seq<CartItem>>>>)
    ensures Consistent(RefreshAll(Mount(storage), outcomes))
    decreases |outcomes|
  {
    if |outcomes| > 0 {
      RefreshesKeepConsistent(storage, outcomes[..|outcomes| - 1]);
    }
  }

  /** The provider after a series of refreshes, oldest first. */
  function RefreshAll(s: ContextState, outcomes: seq<Http<Option<seq<CartItem>>>>): ContextState
    decreases |outcomes|
  {
    if |outcomes| == 0 then s
    else Refresh(RefreshAll(s, outcomes[..|outcomes| - 1]), outcomes[|outcomes| - 1])
  }

  /** What `useCart` yields: the context value, or the error it throws. */
  datatype Hook = Provided(ctx: ContextState) | Thrown(message: string)

  /** `useCart`: it throws exactly when no provider encloses the caller. */
  function UseCart(provider: Option<ContextState>): (r: Hook)
    ensures r.Thrown? <==> provider.None?
    ensures r.Provided? ==> r.ctx == provider.value
    ensures r.Thrown? ==> r.message == "useCart must be used within a CartProvider"
  {
    match provider
    case Some(ctx) => Provided(ctx)
    case None => Thrown("useCart must be used within a CartProvider")
  }

  /**
   Every component under a provider that has mounted and refreshed reads a count and a snapshot
   that agree with the cart; outside a provider it gets the error instead.
   */
  lemma HookSeesConsistentCart(storage: Storage, outcomes: seq<Http<Option<seq<CartItem>>>>)
    ensures var h := UseCart(Some(RefreshAll(Mount(storage), outcomes)));
      h.Provided? && Consistent(h.ctx)
    ensures UseCart(None).Thrown?
  {
    RefreshesKeepConsistent(storage, outcomes);
  }
}
