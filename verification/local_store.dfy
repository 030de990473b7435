/**
 Browser local storage as the client uses it: text values under string keys, each read back
 through `JSON.parse`. The parse is abstracted to the outcomes the client distinguishes.
 */
module LocalStore {
  import opened Outcomes
  import opened CartTypes
  import opened MenuTypes

  /** One element of a stored JSON array, as far as the client looks into it. */
  datatype Entry =
    | CartLine(line: CartItem)                // written by the cart context
    | MenuLine(item: MenuItem)                // written by the menu card; it has no quantity field
    | OtherObject(quantity: Option<int>)      // any other object, with or without a numeric quantity
    | NullValue                               // a JSON null inside the array

  /** What one key holds, classified by what `getItem` and `JSON.parse` make of it. */
  datatype Stored =
    | Missing                  // `getItem` returns null
    | EmptyText                // the empty string, which is falsy
    | Invalid                  // text that `JSON.parse` rejects
    | NotArray                 // valid JSON that is not an array
    | List(entries: seq<Entry>)

  type Storage = map<string, Stored>

  /** The key the cart context writes and the navbar reads. */
  const CartDataKey: string := "cartData"
  /** The key the menu card reads and writes. */
  const MenuCartKey: string := "cart"

  /** `localStorage.getItem(key)`, classified. */
  function Get(st: Storage, key: string): Stored
  {
    if key in st then st[key] else Missing
  }

  /** `localStorage.setItem(key, JSON.stringify(...))`: only `key` changes. */
  function Put(st: Storage, key: string, v: Stored): (r: Storage)
    ensures Get(r, key) == v
    ensures forall k :: k != key ==> Get(r, k) == Get(st, k)
  {
    st[key := v]
  }
}
