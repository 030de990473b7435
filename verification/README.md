# GobbleGo client logic, modelled in Dafny

GobbleGo is a restaurant ordering web client: diners at a table browse the menu, share a cart,
see their orders and pay through a payment gateway; an admin dashboard changes order statuses.
Almost all of the client is rendering and HTTP calls. This project models the small amount of
state logic inside its pages as pure Dafny functions over immutable records. Each HTTP call
enters as a parameter `Http<T>` (`Ok(data)` or `Err`), and the requests a page sends come back
as part of the result.

Modules, one per source file unless noted:

- `CartPage` covers the cart page: the fetch that keeps the first cart, the quantity guard with its refetch, the three-way render and the subtotal.
- `CartLineView` covers one cart line: its line total, the remove/minus/plus buttons and the notification after an update.
- `CartContext` covers the shared cart provider: wholesale refresh, the derived item count, the local-storage snapshot and `useCart`.
- `Navbar` covers the bottom bar: visibility, active tabs, the defensive item count read from the snapshot and the "99+" badge.
- `MenuCard` and `MenuPage` cover the menu: the add button that appends to a stored list, category de-duplication and the category filter.
- `Expansion` is the expand/collapse toggle shared by both order lists.
- `OrdersPage` covers the diner's orders. It holds the counters, the badge colours, the amount still to pay and an event-driven checkout/verify machine (`Step`, `Run`).
- `OrderPage` covers the order-management list: counters, the pending/completed action and the update-then-refetch.
- `AdminPage` covers the dashboard: status options, the single-order status update and the three totals.
- Shared modules: `Outcomes` (`Option`, `Http`); `Seqs` (`Reduce` is the left fold of JavaScript's `reduce`, `Sum` and `SumWhere` are reference sums, `Filter`, `IsSubsequence`, `NoDup`, `FirstIndex`); `Text` (`startsWith`, `includes`, decimal rendering); `CartTypes`, `MenuTypes` and `OrderTypes` (the type declarations); `LocalStore` (local storage).

Modelling choices:

- Money is an `int` in minor units.
- Local storage is a map from key to a classified value: `Missing`, `EmptyText`, `Invalid` (JSON that fails to parse), `NotArray`, or `List` of entries. Each entry is a cart line, a menu item, some other object with an optional `quantity`, or JSON `null`.
- The field names differ between files, so each module uses the shape its file reads. The cart page sums `price * quantity` over the declared cart line (`src/app/cart/types.ts:1-9`). The line component reads `item_price`, `item.item_name`, `notes` and a single `user_id` (`src/app/cart/cart-item.tsx:18,52,63,71`).

Behaviours of the source that the model records as written:

- The diner's badge is blue only for `"payment_initiated"`. The admin can set `"payment_initialized"` but never that string (`AdminPage.NoOptionTurnsBadgeBlue`).
- The menu card writes the key `"cart"` and the navbar reads `"cartData"`. Adding from the menu never moves the badge. A menu entry has no quantity, so it would add 0 even under the right key (`MenuCard.AddLeavesBadge`).
- The cart page's `updateQuantity` catches every error, so its promise always resolves. The line component's error toast therefore cannot fire, and a failed PATCH still shows the success or removal notice, never the error toast (`CartPage.FailedPatchStillNotifiesSuccess`).
- Minus on a zero quantity requests -1. The page drops it, yet the line still shows "Updated" (`CartPage.MinusAtZeroNotifiesWithoutRequest`).
- An empty category string counts as "no filter", because the filter tests `!activeCategory`.
- On the order-management page, a JSON `null` body throws inside the `try` and is caught. The list is then kept, not emptied.
- A successful refresh whose body is `null` sets the context's cart to null. The item count and the snapshot then keep their previous values.
- A quantity of 0 is sent as a PATCH with quantity 0 to `/cart/`; the client never sends a DELETE.

## Model

| member | source | states |
|---|---|---|
| CartPage.FetchCart | src/app/cart/page.tsx:17-30 | A non-empty answer sets the cart to its first element. An empty answer or a failure keeps the previous cart. Loading ends false on every path. |
| CartPage.UpdateQuantity | src/app/cart/page.tsx:32-46 | A negative quantity sends nothing. Any other quantity, 0 included, is PATCHed with the item's own `item_id` and `user_id`. A refetch is requested iff that PATCH succeeded; it is not awaited and settles later through `FetchCart`. The returned promise always resolves. |
| CartPage.FetchedCartIsShown | src/app/cart/page.tsx:17-64 | After a fetch, the corrected render (`View`) lists the first cart's lines with their sum, shows the empty notice for a first cart with null or no lines, and after an empty answer or a failure shows what the previous cart showed. |
| CartPage.Subtotal | src/app/cart/page.tsx:66-70 | The subtotal `reduce` equals the independent sum of price × quantity over the lines. |
| CartPage.SubtotalConcat | src/app/cart/page.tsx:67-70 | The subtotal is additive over concatenation of line lists. |
| CartPage.ViewAsWritten | src/app/cart/page.tsx:48-64 | The render as written: spinner, empty notice, listing, or a TypeError when `items` is null. |
| CartPage.NullItemsBreakAsWritten | src/app/cart/page.tsx:57 | A loaded cart whose `items` is null makes the render as written throw. |
| CartPage.View | src/app/cart/page.tsx:48-64 | Corrected render. The spinner shows iff loading. The empty notice shows iff the cart is null or has no lines. Otherwise the listing shows the cart's own lines with their sum as subtotal. It never throws. |
| CartPage.ViewMatchesAsWritten | src/app/cart/page.tsx:57 | The corrected and as-written renders agree exactly when the cart is absent, loading, or has a non-null `items`. |
| CartPage.FailedPatchStillNotifiesSuccess | src/app/cart/cart-item.tsx:20-35 | Composed with the page's `updateQuantity`, a failed PATCH starts no refetch, yet no error notice is shown: Remove still shows the removal notice, Plus the added notice and Minus the updated notice, except where the new quantity is 0, which reads as a removal. |
| CartPage.MinusAtZeroNotifiesWithoutRequest | src/app/cart/page.tsx:33 | Minus at quantity 0 sends no request at all, yet shows the "updated" notice. |
| CartPage.RemoveLineScenario | src/app/cart/page.tsx:32-70 | Lines of 5.00 × 2 and 3.00 × 1 give 13.00. Setting the second line to 0 sends a PATCH and requests a refetch. Once that refetch answers with the first line only, the page shows 10.00. |
| CartLineView.Requested | src/app/cart/cart-item.tsx:77-101 | Remove requests 0. Minus requests one less and Plus one more than the current quantity. |
| CartLineView.HandleUpdate | src/app/cart/cart-item.tsx:20-35 | Exactly one notice fires. If the update throws, the notice is the error one. Otherwise it is "removed" iff the new quantity is 0, "added" iff it is non-zero and above the current quantity, and "updated" in the remaining case. |
| CartLineView.ButtonsMoveLineTotal | src/app/cart/cart-item.tsx:18 | The line total is `item_price * quantity`. Plus raises it by one unit price, minus lowers it by one, and remove makes it 0. |
| CartLineView.ButtonNotices | src/app/cart/cart-item.tsx:24-30 | On a line with quantity at least 1, remove gives "removed" and plus gives "added". Minus gives "removed" at quantity 1 and "updated" above it. |
| CartContext.Mount | src/context/CartContext.tsx:17-18 | The provider starts with a null cart and an item count of 0. |
| CartContext.Entries | src/context/CartContext.tsx:31 | The snapshot holds one entry per cart line, in order. |
| CartContext.ItemCount | src/context/CartContext.tsx:28 | The quantity `reduce` equals the reference sum of quantities. |
| CartContext.Sync | src/context/CartContext.tsx:26-34 | For a non-null cart, including an empty one, the count becomes the sum of quantities and the `cartData` snapshot becomes exactly that cart. No other key changes. A null cart leaves count and storage untouched. |
| CartContext.Refresh | src/context/CartContext.tsx:36-43 | Success replaces the cart wholesale with the fetched value. Failure changes nothing. A null payload keeps the previous count and snapshot. |
| CartContext.RefreshesKeepConsistent | src/context/CartContext.tsx:16-43 | After mounting and any series of refreshes, a non-null cart agrees with both the count and the snapshot. |
| CartContext.SetCartKeepsConsistent | src/context/CartContext.tsx:17-46 | Whatever cart a consumer sets through the provider's `setCart`, from any state, the effect that follows leaves the count and the snapshot agreeing with it. |
| CartContext.UseCart | src/context/CartContext.tsx:52-58 | `useCart` throws its message iff no provider encloses the caller. Otherwise it returns the provider's value. |
| CartContext.HookSeesConsistentCart | src/context/CartContext.tsx:16-58 | Under a provider that has mounted and refreshed any number of times, `useCart` yields a value whose count and snapshot agree with its cart; outside a provider it throws. |
| Navbar.Visible | src/components/navbar.tsx:17-19 | The bar is shown iff "/admin" occurs nowhere in the path and "/table" occurs nowhere either. |
| Navbar.SumQuantities | src/components/navbar.tsx:29 | The fold aborts iff the array holds a null element. Otherwise it adds every quantity, with a missing quantity read as 0. |
| Navbar.CountStored | src/components/navbar.tsx:21-34 | The count is 0 when the snapshot is missing, empty, unparsable, not an array, or holds a null element. Otherwise it is the sum of the quantities. |
| Navbar.BadgeLabel | src/components/navbar.tsx:58-91 | A badge is present iff the count is positive. Its text is "99+" iff the count exceeds 99. Otherwise it is a canonical decimal numeral that reads back as the count. |
| Navbar.AtMostOneTabActive | src/components/navbar.tsx:41-65 | No path makes two of Home ("/"), Menu, Cart ("/cart") and Orders ("/orders") active. |
| Navbar.MenuTabPaths | src/components/navbar.tsx:51 | Menu is active on "/menu" and on every path under "/menu/", but not on "/menus". |
| Navbar.SnapshotSum | src/components/navbar.tsx:29 | Summing the snapshot written for a cart gives the cart's sum of quantities. |
| Navbar.BadgeReadsContextCount | src/context/CartContext.tsx:26-32 | In any consistent provider state with a cart, the navbar's count read from storage equals the context's `totalItems`. |
| MenuCard.AddToCart | src/app/menu/menu-item.tsx:13-19 | A missing or empty stored list counts as empty. The item is appended and written back under `cart`, and no other key changes. Unparsable text or a non-array throws before anything is written. |
| MenuCard.FirstAddStoresOneItem | src/app/menu/menu-item.tsx:15 | With nothing stored, one add leaves a list holding just that item. |
| MenuCard.AddAppends | src/app/menu/menu-item.tsx:16-17 | The list grows by exactly one. Earlier entries keep their positions, and the new item is last. |
| MenuCard.AddTwiceKeepsBoth | src/app/menu/menu-item.tsx:16 | Adding the same item twice yields two entries for it; nothing is merged. |
| MenuCard.AddLeavesBadge | src/app/menu/menu-item.tsx:15-17 | Adding from the menu never changes the navbar count. An appended menu entry would add 0 to any stored list. |
| MenuPage.FirstOrderAfterAppend | src/app/menu/page.tsx:22 | Appending a value to a list keeps the first-occurrence order of the values already there, and a value new to the list first occurs at its end. |
| MenuPage.Distinct | src/app/menu/page.tsx:22 | The de-duplicated list has no repeats and contains exactly the input values. They appear in order of first occurrence. |
| MenuPage.Categories | src/app/menu/page.tsx:22 | A string is a category button iff some menu item has that category, and no button repeats. |
| MenuPage.KeepAll | src/app/menu/page.tsx:72-74 | Without an active category, the filter keeps every item. |
| MenuPage.Shown | src/app/menu/page.tsx:71-77 | With no (or an empty) active category the full list is shown. Otherwise exactly the items of that category are shown, with their multiplicities. The result is always an order-preserving subsequence of the catalogue. |
| MenuPage.Loaded | src/app/menu/page.tsx:15-28 | A response sets the items and derives the categories from them. A rejection changes nothing. |
| MenuPage.Select | src/app/menu/page.tsx:47-62 | Choosing "All" or a category changes only the active category. |
| MenuPage.CategoryButtonsShowItems | src/app/menu/page.tsx:51-77 | After loading, choosing any category button shows at least one card. |
| Expansion.Toggle | src/app/orders/page.tsx:66-72 | Toggling the expanded id collapses it. Toggling any other id expands exactly that id. |
| Expansion.ExpandedRows | src/app/orders/page.tsx:324 | No row is expanded iff the toggle is empty or holds an id not in the list. |
| Expansion.AtMostOneRowExpanded | src/app/orders/page.tsx:316-324 | With distinct order ids, at most one row renders its details. |
| Expansion.ClickExpandsOneRow | src/app/order/page.tsx:48-54 | Clicking a listed order that is not expanded leaves exactly one expanded row: that one. |
| Expansion.ToggleTwice | src/app/order/page.tsx:48-54 | Two clicks on the same order restore the state only when nothing else was expanded. |
| OrdersPage.PendingTotal | src/app/orders/page.tsx:173-176 | The pending total is the sum of `total_amount` over every order whose status is not "completed". |
| OrdersPage.AllCompletedOwesNothing | src/app/orders/page.tsx:174-176 | If every order is completed, the pending total is 0, so the pay section is hidden. |
| OrdersPage.PendingCount | src/app/orders/page.tsx:238 | The pending counter equals the number of orders whose status is "pending" (the independent `Count`), so it never exceeds the number of orders and is 0 iff no order is pending. |
| OrdersPage.StatusBadge | src/app/orders/page.tsx:297-303 | The badge is green iff "completed" and blue iff "payment_initiated". Every other string, unknown ones included, gets yellow. |
| OrdersPage.Step | src/app/orders/page.tsx:54-251 | Every event is pinned to its whole next state and effects. A fetch sets loading and requests the orders; a settled fetch stores the body (an absent body as `[]`) and clears loading, and a failed one only clears loading. A row click toggles that row. Pay does something only when the section is shown and not disabled by checkout or verification. A checkout answer with no checkout outstanding changes nothing. An answer to the outstanding checkout clears the checkout flag; only a success with the gateway script loaded opens a gateway for the returned handle, and every other outcome toasts. A gateway reports a payment only for a handle a checkout opened; it then posts the original `payment_id` with the three gateway fields unchanged, and that request is remembered as awaiting an answer. A gateway failure only toasts. An answer settles only a request that is awaiting it; any other answer changes nothing. A rejected answer only clears the verifying flag and toasts. An accepted answer sets success, records a receipt with that request's payment and order ids and the pending total, and refetches. Closing the success notice only clears success. |
| OrdersPage.CheckoutCameFromClick | src/app/orders/page.tsx:88-89 | A checkout is outstanding only after a Pay click that happened while the section was shown and the button enabled. |
| OrdersPage.OpenedCameFromCheckout | src/app/orders/page.tsx:88-120 | From a page with no checkout outstanding and no gateway open, every gateway still open was opened with that handle by a checkout answer at some k, which a Pay click on a shown, enabled button at some m < k started. |
| OrdersPage.PostedCameFromGateway | src/app/orders/page.tsx:88-120 | Every verification request awaiting an answer was posted by a gateway success at some i, for the handle that a checkout at some k < i opened the gateway with, and that checkout was started by a Pay click on a shown, enabled button at some m < k. |
| OrdersPage.SuccessNeedsVerification | src/app/orders/page.tsx:88-251 | In any event sequence from a page with no checkout outstanding, no gateway open and nothing awaiting, payment success turns true only if, for some m < k < i < j, a Pay click at m reached `handleCheckout` because the section was shown (something left to pay) and the button enabled, the checkout it started answered at k and opened a gateway with a handle, the gateway success at i for that handle posted the verification request, and the server accepted that request at j. The receipt then shows that request's payment and order ids. |
| OrdersPage.NoPayClickNoSuccess | src/app/orders/page.tsx:243-251 | From a page with nothing under way and no success shown, no event sequence without a Pay click ever shows a payment as done. |
| OrdersPage.AcceptedVerificationShowsReceipt | src/app/orders/page.tsx:88-160 | From a loaded page owing one pending order of 500, Pay, a checkout, the gateway's success for that checkout and an accepted verification show success with the gateway's payment and order ids and the amount 500 on the receipt, with nothing left awaiting. |
| OrdersPage.RejectedVerificationShowsNoSuccess | src/app/orders/page.tsx:88-170 | The same session with a rejected verification leaves success false, no receipt, verification finished and nothing awaiting. |
| OrdersPage.CheckoutOpensGateway | src/app/orders/page.tsx:88-95 | From a loaded page owing one pending order, Pay followed by a successful checkout with the script loaded leaves exactly that handle's gateway open and the checkout flag cleared. |
| OrdersPage.ForeignHandleIsIgnored | src/app/orders/page.tsx:108-120 | After a checkout opened a gateway for one handle, a payment reported for any other handle posts nothing and changes nothing. |
| OrdersPage.UnrequestedCheckoutIsIgnored | src/app/orders/page.tsx:88-106 | A checkout answer that arrives with no checkout outstanding, whatever it carries, leaves the page unchanged. |
| OrderPage.BeginFetch | src/app/order/page.tsx:36-37 | Starting a fetch shows the spinner and keeps the list. |
| OrderPage.SettleFetch | src/app/order/page.tsx:36-46 | A body with orders replaces the list. A body without the field empties it. A null body or a failure keeps it. Loading ends false on every path. |
| OrderPage.NullBodyActsAsFailure | src/app/order/page.tsx:36-46 | A fetch that starts and then gets a JSON null body ends exactly like a failed fetch, with the list kept and the spinner gone; the spinner shown at the start never affects the result. |
| OrderPage.RowClicked | src/app/order/page.tsx:48-54 | A row click changes only the expansion, through the shared toggle. |
| OrderPage.PendingCount | src/app/order/page.tsx:103 | The pending counter equals the number of orders whose status is "pending". |
| OrderPage.CompletedCount | src/app/order/page.tsx:113-114 | The completed counter equals the number of orders whose status is "completed". |
| OrderPage.CountersWithinTotal | src/app/order/page.tsx:103-115 | Pending count plus completed count never exceeds the number of orders. |
| OrderPage.GreenRowsOfferPending | src/app/order/page.tsx:154-158 | A row's badge is green iff the order offers "Mark as Pending", and iff the diner's orders page would also show it green. |
| OrderPage.ActionFor | src/app/order/page.tsx:227-248 | A "pending" order offers "completed" and a "completed" order offers "pending". Any other status offers nothing. |
| OrderPage.ActionTwiceRestores | src/app/order/page.tsx:231-242 | Taking the offered action twice returns the original status. |
| OrderPage.ActionMovesCounters | src/app/order/page.tsx:103-115 | Once an order's offered action is applied, that order moves from the pending counter to the completed one, or back; each counter changes by exactly one. |
| OrderPage.UpdateOrderStatus | src/app/order/page.tsx:67-76 | The PATCH carries the id and the status. A successful PATCH starts a refetch. A failed one sends nothing more and leaves the orders unchanged. |
| OrderPage.FailedUpdateKeepsCounters | src/app/order/page.tsx:67-76 | A failed update requests no refetch and leaves both counters and the spinner as they were. |
| OrderPage.ActionClicked | src/app/order/page.tsx:227-248 | An order without an action sends nothing. Otherwise the click updates the order to its offered status. |
| AdminPage.StatusOptionsDistinct | src/app/admin/page.tsx:48-56 | The status menu has seven options, all distinct. |
| AdminPage.NoOptionTurnsBadgeBlue | src/app/admin/page.tsx:53 | No option the admin can set gets the blue badge on the diner's orders page. |
| AdminPage.Loaded | src/app/admin/page.tsx:62-74 | A response replaces the list. A failure keeps it and shows an error. |
| AdminPage.WithStatus | src/app/admin/page.tsx:81-85 | Only orders with the matching id get the new status. Every other order, the length and the order are unchanged. |
| AdminPage.WithStatusIdempotent | src/app/admin/page.tsx:81-85 | Applying the same status update twice equals applying it once. |
| AdminPage.BeginUpdate | src/app/admin/page.tsx:76-77 | Starting an update marks that order as loading and keeps the list. |
| AdminPage.SettleUpdate | src/app/admin/page.tsx:78-94 | Success applies the status update and toasts success. Failure keeps the list and toasts an error. Loading is cleared on both paths. |
| AdminPage.LockedOnlyWhileUpdating | src/app/admin/page.tsx:185 | During an update only that order's button is disabled. After it settles, on either path, none is. |
| AdminPage.OrderQuantity | src/app/admin/page.tsx:100 | The inner `reduce` is the sum of one order's line quantities. |
| AdminPage.TotalRevenue | src/app/admin/page.tsx:96 | Revenue is the sum of `total_amount`. |
| AdminPage.TotalItemsSold | src/app/admin/page.tsx:98-102 | Items sold is the sum over orders of the sum of their line quantities. |
| AdminPage.UpdateKeepsTotals | src/app/admin/page.tsx:81-102 | A status update leaves revenue, the order count and items sold unchanged. |
| AdminPage.LoadedTotals | src/app/admin/page.tsx:62-102 | After the fetch on mount the three totals are those of the fetched list; after a failure they are the previous ones. |
| AdminPage.TotalsAdd | src/app/admin/page.tsx:96-102 | Revenue and items sold are additive over concatenation of order lists. |

## Left out

- HTTP is not modelled: every axios call is an `Http<T>` parameter, and the backend is external.
- Concurrency is not modelled. Requests that are not awaited (the refetches) are returned as requests and settle through separate calls or events (`CartPage.FetchCart`, `OrderPage.SettleFetch`, the orders page's `FetchSettled`). Late responses after unmount are out of scope.
- The 60-second polling interval and its cleanup in the cart context are not modelled: they are timer behaviour. A poll is one more `Refresh`.
- The gateway SDK is not modelled: its script loading, the options object and `new Razorpay(...)` are a foreign library. Only the `sdkLoaded` flag and the success/failure callbacks enter, as events.
- OrdersPage.Step: the receipt amount uses the pending total of the orders current at verification. The source reads it from the render that created the checkout handler, and stale closures are not modelled.
- JSON parsing is abstracted. A `quantity` that is not a number is not modelled: JavaScript would concatenate strings there.
- Floating-point money, `toFixed`, date formatting and `substring` truncation are not modelled: they are display only.
- Toast texts, the notes and contributor lines of a cart line, and all layout and styling are not modelled: they are display only.
- The admin fetch setting `orders` to a null body is not modelled: the dashboard's `reduce` would then throw.
- MenuPage.Loaded: a response whose body is JSON `null` is not modelled. The source then calls `setMenuItems(null)` and throws in `.map` (src/app/menu/page.tsx:21-22), and the next render throws in `menuItems.filter` (src/app/menu/page.tsx:72); `Http<seq<MenuItem>>` has no value for that body.
- OrdersPage.Step: a checkout answer with no checkout outstanding is ignored. In the source such an answer cannot arrive, because `handleCheckout` runs only from the Pay button, which is rendered only while something is left to pay and is disabled while a checkout or a verification is under way (src/app/orders/page.tsx:243-251).
- OrdersPage.Step: a verification answer for a request that is not awaiting one is ignored. In the source such an answer cannot arrive, because each answer resumes the `handlePaymentSuccess` call that posted its request.
- OrdersPage.Step: a gateway payment report for a handle no checkout opened is ignored. In the source such a report cannot arrive, because each gateway's `handler` closes over the `orderData` it was opened with (src/app/orders/page.tsx:108-120). A gateway stays open after a failure report and after its modal is closed without paying, because the source registers no dismiss handler and answers a failure report only with a toast (src/app/orders/page.tsx:136-138).
- The layout, the splash page, the item modal and the image path rewrite are not modelled: they are fonts, presentation and infrastructure.
- The table join page, the session identity record, the leader flag and order placement are not modelled: they live outside the cart, menu, order and admin pages.

## Findings

| source | as written | input that shows it | evidently intended | confidence | as-written member | corrected member |
|---|---|---|---|---|---|---|
| src/app/cart/page.tsx:57 | reads `cart.items.length`, although `src/app/cart/types.ts:13` allows `items` to be null | a loaded cart whose `items` is null | show the "Your cart is empty" notice | medium, not executed | CartPage.ViewAsWritten (with CartPage.NullItemsBreakAsWritten) | CartPage.View |
