/**
 The cart line component: its line total, the three buttons that each request a new quantity,
 and the single notification shown once the requested update settles.
 */
module CartLineView {
  import opened Outcomes

  /** The nested catalogue record the component reads the item's name and image from. */
  datatype CatalogRef = CatalogRef(item_name: string, images: string)

  /**
   A cart line in the shape this component reads it: the unit price is `item_price`, the name
   sits under `item`, and the contributor is a single user id.
   */
  datatype CartLine = CartLine(
    item_price: int,
    quantity: int,
    item: CatalogRef,
    notes: Option<string>,
    user_id: Option<string>)

  /** The amount shown beside the line. */
  function LineTotal(l: CartLine): int
  {
    l.item_price * l.quantity
  }

  datatype Button = Remove | Minus | Plus

  /** The quantity a button asks the page to set. */
  function Requested(l: CartLine, b: Button): (r: int)
    ensures b == Remove ==> r == 0
    ensures b == Minus ==> r == l.quantity - 1
    ensures b == Plus ==> r == l.quantity + 1
  {
    match b
    case Remove => 0
    case Minus => l.quantity - 1
    case Plus => l.quantity + 1
  }

  /** How the awaited `updateQuantity` promise settled. */
  datatype Settled = Resolved | Threw

  /** The toast shown after an update. */
  datatype Notice = RemovedNotice | AddedNotice | UpdatedNotice | FailedNotice

  /** `handleUpdate`: exactly one notification, classified by the requested quantity. */
  function HandleUpdate(l: CartLine, newQty: int, settled: Settled): (r: Notice)
    ensures settled == Threw <==> r == FailedNotice
    ensures settled == Resolved ==> (r == RemovedNotice <==> newQty == 0)
    ensures settled == Resolved ==> (r == AddedNotice <==> newQty != 0 && newQty > l.quantity)
    ensures settled == Resolved ==> (r == UpdatedNotice <==> newQty != 0 && newQty <= l.quantity)
  {
    match settled
    case Threw => FailedNotice
    case Resolved =>
      if newQty == 0 then RemovedNotice
      else if newQty > l.quantity then AddedNotice
      else UpdatedNotice
  }

  /** Each button moves the line total by exactly one unit price, and remove clears it. */
  lemma ButtonsMoveLineTotal(l: CartLine, b: Button)
    ensures var after := LineTotal(l.(quantity := Requested(l, b)));
      match b
      case Remove => after == 0
      case Minus => after == LineTotal(l) - l.item_price
      case Plus => after == LineTotal(l) + l.item_price
  {
  }

  /** The notice each button produces once its update resolves. */
  lemma ButtonNotices(l: CartLine, b: Button)
    requires l.quantity >= 1
    ensures var n := HandleUpdate(l, Requested(l, b), Resolved);
      match b
      case Remove => n == RemovedNotice
      case Plus => n == AddedNotice
      case Minus => n == (if l.quantity == 1 then RemovedNotice else UpdatedNotice)
  {
  }
}
