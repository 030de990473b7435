/** The order line record that both order lists declare. */
module OrderTypes {
  import opened Outcomes

  datatype OrderItem = OrderItem(
    item_id: string,
    user_id: Option<string>,
    user_ids: Option<seq<string>>,
    quantity: int)
}
