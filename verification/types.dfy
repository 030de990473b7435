/** The cart records as the cart type declarations and the cart page describe them. */
module CartTypes {
  import opened Outcomes

  /** One cart line: a catalogue item, its unit price in minor units and the contributing users. */
  datatype CartItem = CartItem(
    item_id: string,
    item_name: string,
    price: int,
    quantity: int,
    user_id: seq<string>,
    user_name: seq<string>,
    image: string)

  /** One cart as the cart endpoint returns it; `items` may be JSON null. */
  datatype CartResponse = CartResponse(
    cart_id: string,
    items: Option<seq<CartItem>>,
    payment_status: string,
    bill_amount: int)

  /** The quantity of a line, the measure the item counts add up. */
  function Quantity(i: CartItem): int
  {
    i.quantity
  }
}

/** The catalogue entry as the menu type declaration describes it. */
module MenuTypes {

  datatype MenuItem = MenuItem(
    item_id: string,
    item_name: string,
    item_desc: string,
    price: int,
    is_available: bool,
    category: string,
    est_prep_time: int,
    description: string,
    images: string)
}
