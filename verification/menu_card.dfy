/** The menu card's add button, which appends the catalogue item to a list in local storage. */
module MenuCard {
  import opened Outcomes
  import opened MenuTypes
  import opened LocalStore
  import Seqs
  import Navbar

  /** What one click does: storage after the write (and the success toast), or an exception. */
  datatype Click = Written(storage: Storage) | Thrown

  /** `JSON.parse(localStorage.getItem("cart") || "[]")` when it yields an array. */
  function StoredArray(v: Stored): Option<seq<Entry>>
  {
    match v
    case Missing => Some([])
    case EmptyText => Some([])
    case List(es) => Some(es)
    case _ => None
  }

  /**
   `addToCart`: push the item onto the stored array and write it back. Unparsable text or a
   non-array makes the handler throw before anything is written.
   */
  function AddToCart(st: Storage, item: MenuItem): (r: Click)
    ensures r.Written? <==> StoredArray(Get(st, MenuCartKey)).Some?
    ensures r.Written? ==>
      Get(r.storage, MenuCartKey) == List(StoredArray(Get(st, MenuCartKey)).value + [MenuLine(item)])
    ensures r.Written? ==> forall k :: k != MenuCartKey ==> Get(r.storage, k) == Get(st, k)
  {
    match StoredArray(Get(st, MenuCartKey))
    case Some(es) => Written(Put(st, MenuCartKey, List(es + [MenuLine(item)])))
    case None => Thrown
  }

  /** A missing list reads as empty, so the first add leaves exactly the one item. */
  lemma FirstAddStoresOneItem(st: Storage, item: MenuItem)
    requires MenuCartKey !in st
    ensures AddToCart(st, item).Written?
    ensures Get(AddToCart(st, item).storage, MenuCartKey) == List([MenuLine(item)])
  {
  }

  /** The list grows by one, earlier entries keep their place, and the item is last. */
  lemma AddAppends(st: Storage, item: MenuItem)
    requires Get(st, MenuCartKey).List?
    ensures var before := Get(st, MenuCartKey).entries;
      var after := Get(AddToCart(st, item).storage, MenuCartKey).entries;
      && |after| == |before| + 1
      && after[..|before|] == before
      && after[|before|] == MenuLine(item)
  {
  }

  /** Nothing is merged: adding the same item twice leaves two entries for it. */
  lemma AddTwiceKeepsBoth(st: Storage, item: MenuItem)
    requires StoredArray(Get(st, MenuCartKey)).Some?
    ensures var once := AddToCart(st, item).storage;
      var twice := AddToCart(once, item).storage;
      var before := StoredArray(Get(st, MenuCartKey)).value;
      Get(twice, MenuCartKey) == List(before + [MenuLine(item), MenuLine(item)])
  {
  }

  /**
   The card writes `cart` while the navbar reads `cartData`, so adding from the menu never
   moves the badge; and a menu entry has no quantity, so it would add 0 even under that key.
   */
  lemma AddLeavesBadge(st: Storage, item: MenuItem, es: seq<Entry>)
    requires AddToCart(st, item).Written?
    ensures Navbar.CartItemCount(AddToCart(st, item).storage) == Navbar.CartItemCount(st)
    ensures Navbar.CountStored(List(es + [MenuLine(item)])) == Navbar.CountStored(List(es))
  {
    Seqs.SumConcat(es, [MenuLine(item)], Navbar.QuantityOrZero);
    assert [MenuLine(item)][1..] == [];
  }
}
