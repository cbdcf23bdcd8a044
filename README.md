# dpizza — ordering and admin logic in Dafny

dpizza is a single-vendor pizza shop that runs entirely in the browser.
There are two pages:

- the storefront (`app.js`), where a customer filters the menu, builds a cart, applies a coupon, checks out and tracks the order;
- the admin console (`admin.js`), where the owner does the following:
  - reads dashboard figures;
  - moves orders through their statuses;
  - adds, edits and deletes products;
  - creates and deletes coupons;
  - reads a customer list folded from the order history.

Both pages share one key-value store with five keys: `dpizza_menu`, `dpizza_history`, `dpizza_coupons`, `dpizza_profile` and `last_order_id`.

The project models that shared logic and proves what it does:

- `js.dfy` (module `Js`): the JavaScript built-ins the logic relies on, as functions with their own contracts:
  - `find`/`findIndex`;
  - `filter`;
  - `toUpperCase`;
  - the decimal rendering of a number.
- `store.dfy` (module `Store`):
  - the records: menu item, cart line, coupon, profile and order;
  - the five keys, as the class `KeyValueStore`;
  - the fail-soft read `safeParse`;
  - the default menu;
  - the one-time menu seeding.

  A key's content is a `Slot`: missing, the empty string, unparsable text, or a value.
- `pricing.dfy` (module `Pricing`): the badge count, the subtotal, the floor-rounded percentage discount and the payable total.
- `storefront.dfy` (module `Storefront`):
  - the category filter;
  - the cart rules, as functions on the cart;
  - coupon lookup;
  - the order record built at checkout;
  - the active-order banner;
  - the tracking steps;
  - the class `Session`, which holds one tab's global variables (`cart`, `appliedCoupon`, `currentMenu`, `currentUser`) and whose methods update them in place.
- `admin.dfy` (module `Admin`): dashboard figures, status update, the product form, product deletion, clearing the history, coupon creation and deletion, and the customer list. The admin operations are methods that read the store and write back what they change.

The following become parameters:

- the random draw behind an order id;
- `Date.now()` and the ISO timestamp;
- the answers to `confirm` and `prompt`;
- the numbers `parseInt`/`parseFloat` read from form fields;
- the images read by the file picker;
- the number of `.step` elements on the tracking page.

The model states what the code does, including these behaviours a reader might not expect:

- **The stored order total is the cart subtotal before the coupon** (`app.js:196`), not the amount payable. `Admin.CheckoutAddsUndiscountedSubtotal` shows the consequence: the dashboard's sales figure grows by more than the customer paid.
- **The customer list keeps the name and address of the first order for a phone** (`admin.js:267`), not of the most recent one. `Admin.LedgerFirstContact` and `Admin.LedgerExample` state this.
- **Every order is folded into the customer list, whatever its phone.** No order is skipped for lacking a phone; in the model a phone is always a string.
- **The menu is seeded when the menu key is missing or holds the empty string** (`!localStorage.getItem`, `app.js:38`). A stored `[]` is never overwritten; `Store.SeedingIsOneTime` proves this.
- **Coupon lookup takes the first active coupon with the code** (`app.js:182`), so an older coupon wins over a newer one with the same code. Nothing stops duplicate codes from being created.
- **Checkout does not clear the cart**, and nothing checks that the cart is non-empty. The cart and the applied coupon are cleared only by the home button (`app.js:74-75`).

## Model

| member | source | states |
|---|---|---|
| Js.FindIndex | app.js:142 | the index `find` returns: the first element satisfying the predicate, or none exactly when no element does |
| Js.FindIndexIsFirst | app.js:144 | any satisfying index with no satisfying index before it is the one `find` returns |
| Js.Filter | app.js:94 | `filter` keeps exactly the elements satisfying the predicate, never grows, and is the identity when every element passes |
| Js.FilterAppend | app.js:94 | filtering a concatenation filters each part, so the kept elements stay in source order |
| Js.FilterCounts | admin.js:234 | filtering keeps every copy of a kept value and no copy of a dropped one |
| Js.FilterDropsOne | app.js:153 | when only the element at `k` fails the predicate, filtering removes exactly position `k` |
| Js.FilterKeepsFirst | admin.js:260 | dropping only elements that fail `p` does not change which element `find(p)` returns |
| Js.ToUpperCase | app.js:181 | upper-casing keeps the length, leaves no lower-case letter, keeps every other character and maps each letter to its capital |
| Js.ToUpperCaseIdempotent | admin.js:254 | a code stored upper-cased is unchanged by upper-casing it again |
| Js.NatToString | app.js:191 | the decimal rendering of the draw is non-empty, all digits, and has no leading zero |
| Js.NatToStringRoundTrip | app.js:191 | reading the rendered digits back gives the number |
| Store.ReadAfterWrite | app.js:16-21 | reading a key that holds a value gives that value, whatever the fallback |
| Store.SafeParse | app.js:16-21 | `safeParse`: the stored value when the key holds one, else the fallback; its meaning is stated by `ReadAfterWrite` and `ReadFallback` |
| Store.ReadFallback | app.js:16-21 | a missing key, the empty string and unparsable text all read as the caller's fallback |
| Store.Falsy | app.js:38 | `!localStorage.getItem(key)`: true exactly for a missing key and the empty string, never for unparsable text or a value; `Seeded` and `SeedingIsOneTime` state its effect |
| Store.Seeded | app.js:37-40 | the default menu is written when the menu key is missing or empty, and any other content is kept |
| Store.SeedingIsOneTime | app.js:38-40 | seeding never overwrites a stored menu, not even `[]`; seeding twice equals seeding once; a seeded key is never missing or empty |
| Store.KeyValueStore.SeedMenu | admin.js:28-32 | `initMenu`: the menu key becomes the default menu when it was missing or empty, and is otherwise unchanged |
| Pricing.ItemCount | app.js:159 | the badge count is at least the number of lines when every quantity is positive |
| Pricing.Subtotal | app.js:160 | the subtotal is non-negative when prices and quantities are |
| Pricing.ItemCountAppend | app.js:159 | the count of a concatenation is the sum of the counts |
| Pricing.SubtotalAppend | app.js:160 | the subtotal of a concatenation is the sum of the subtotals |
| Pricing.SumsAfterReplace | app.js:159-160 | replacing one line moves count and subtotal by the difference between the new line and the old one |
| Pricing.SumsAfterRemove | app.js:159-160 | removing one line takes its quantity off the count and its price times quantity off the subtotal |
| Pricing.SubtotalExample | app.js:160 | two lines at 299 x 2 and 199 x 1 give subtotal 797 and count 3 |
| Pricing.Discount | app.js:161 | the discount is the floor of subtotal x percent / 100 |
| Pricing.PayableTotal | app.js:161 | without a coupon the total is the subtotal; with a 0-100% coupon on a non-negative subtotal it lies between 0 and the subtotal |
| Pricing.PayableExample | app.js:161 | 15% off 1000 leaves 850 |
| Storefront.ByCategory | app.js:94 | "all" shows the whole menu; any other category shows exactly the menu's items of that category, each with all its copies (order is kept by `Js.FilterAppend`) |
| Storefront.LineFound | app.js:144 | in a cart without duplicate ids, `cart.find` by id returns that item's line |
| Storefront.AddUnknownIsNoOp | app.js:142-143 | adding an id missing from the menu leaves the cart unchanged |
| Storefront.WithAdded | app.js:141-145 | the cart after `addToCart`; its behaviour is stated case by case by `AddUnknownIsNoOp`, `AddExistingIncrements` and `AddNewAppends`, and `AddKeepsWellFormed` shows it keeps ids unique and quantities positive |
| Storefront.AddExistingIncrements | app.js:144-145 | adding an id already in the cart raises only that line by one; the count grows by 1 and the subtotal by the line's price |
| Storefront.AddNewAppends | app.js:145 | adding a new id appends one copy of the first menu item with that id at quantity 1; the count grows by 1 and the subtotal by its price |
| Storefront.AddKeepsWellFormed | app.js:141-147 | after any add, no two lines share an id and every quantity is at least 1 |
| Storefront.QtyUnknownIsNoOp | app.js:150-151 | changing the quantity of an id not in the cart changes nothing |
| Storefront.WithQtyChanged | app.js:149-154 | the cart after `updateQty`; stated case by case by `QtyUnknownIsNoOp`, `QtyChangeUpdates` and `QtyChangeRemoves`, and `QtyKeepsWellFormed` shows it keeps the cart well formed |
| Storefront.QtyChangeUpdates | app.js:152 | a change that leaves a positive quantity updates only that line; count and subtotal move by `change` units |
| Storefront.QtyChangeRemoves | app.js:153 | a change to zero or below removes that line and only it, with all of it taken off count and subtotal |
| Storefront.QtyKeepsWellFormed | app.js:149-156 | after any quantity change, no two lines share an id and every quantity is at least 1 |
| Storefront.Session.AddToCart | app.js:141-147 | the cart becomes the added cart and stays well formed |
| Storefront.Session.UpdateQty | app.js:149-156 | the cart becomes the changed cart and stays well formed |
| Storefront.FindCoupon | app.js:181-182 | the coupon found is stored, active and has the upper-cased code; it is the first such coupon; none is found exactly when no active coupon has that code |
| Storefront.CouponLookupIgnoresCase | app.js:181 | two inputs that upper-case alike find the same coupon |
| Storefront.Session.ApplyCoupon | app.js:180-186 | the applied coupon becomes the lookup result, so a failed lookup clears any earlier coupon |
| Storefront.OrderId | app.js:191 | an order id is "ORD" followed by the decimal rendering of the draw |
| Storefront.OrderIdInjective | app.js:191 | two ids are equal only when they come from the same draw, so a collision means a repeated random draw |
| Storefront.Session.PlaceOrder | app.js:188-202 | the new pending order carries the form fields, the cart and the undiscounted subtotal; it is appended to the stored history; the profile is overwritten; `last_order_id` is its id; cart and coupon are unchanged |
| Storefront.ActiveOrder | app.js:211-215 | the banner shows exactly when the first stored order with `last_order_id` exists and is not delivered |
| Storefront.PlacedOrderIsActive | app.js:200-215 | right after checkout the new order is active, provided no earlier order drew the same id |
| Storefront.IdCollisionHidesOrder | app.js:214 | an earlier delivered order with the same id hides the new one and keeps the banner off |
| Storefront.StepOf | app.js:231-232 | the four statuses map to steps 1-4, and anything else maps to 1 |
| Storefront.StatusOrder | app.js:231 | pending < preparing < dispatched < delivered in step order |
| Storefront.StepMarks | app.js:233-237 | there is one mark per step element; steps before the current one are completed and exactly the current one is active |
| Storefront.OneCurrentStep | app.js:236 | at most one step is marked active |
| Storefront.TrackTarget | app.js:223 | the id `trackOrder` looks up: `last_order_id` for "current", the requested id otherwise; `TrackOrder` and `Admin.StatusUpdateEffects` state what is shown for it |
| Storefront.TrackOrder | app.js:222-237 | an order is shown exactly when one has the looked-up id ("current" meaning `last_order_id`); it is the first such order, with its step and marks |
| Storefront.Session.Init | app.js:28-43 | the profile is read, the menu key is seeded, and the menu is read with the default menu as fallback |
| Storefront.Session.GoHome | app.js:71-78 | the home button empties the cart and drops the applied coupon |
| Admin.TotalOrZero | admin.js:63 | an order's total (`o.total` or 0), or 0 when it has none; `SalesTotalAppend` states its share of the sales figure |
| Admin.SalesTotal | admin.js:63 | total sales are non-negative when every total is |
| Admin.SalesTotalAppend | admin.js:63 | one more order adds its total, or 0 when it has none |
| Admin.PhoneSet | admin.js:64 | the customers are exactly the phones that occur in the history |
| Admin.PhoneSetBound | admin.js:64 | there are never more customers than orders |
| Admin.DashboardStats | admin.js:60-64 | the customer figure never exceeds the order figure; an empty history shows zero sales and customers |
| Admin.CheckoutAddsUndiscountedSubtotal | app.js:196 | a checkout raises dashboard sales by the undiscounted subtotal, which is more than was payable under a coupon |
| Admin.AddTotal | admin.js:267 | the running sum stays a number only while every total is present, and then adds it |
| Admin.Tally | admin.js:267 | one fold step leaves every other row alone and sets the order's phone row: its count is the old count (or 0) plus one, its sales the old sales (or 0) plus the total, and its name and address are kept when the phone had a row and taken from this order otherwise |
| Admin.Ledger | admin.js:266-267 | the customer list folded from a history; `LedgerKeys`, `LedgerOrders`, `LedgerSales` and `LedgerFirstContact` state its rows |
| Admin.LoadCustomers | admin.js:264-267 | the loop builds the customer list of the stored history |
| Admin.LedgerKeys | admin.js:266-267 | the list has one row per distinct phone, as many as the dashboard's customer count |
| Admin.LedgerOrders | admin.js:267 | a row counts exactly the orders with its phone |
| Admin.LedgerSales | admin.js:267 | a row's sales are the sum of its orders' totals, or NaN once one of them has no total |
| Admin.LedgerFirstContact | admin.js:267 | a row carries the name and address of the first order with its phone |
| Admin.PhoneOrder | admin.js:268 | the listed rows' phones are exactly the history's phones, each once |
| Admin.OrdersColumnIsHistoryLength | admin.js:267 | the order counts of all rows add up to the number of orders |
| Admin.LedgerExample | admin.js:267 | two orders from "9999" of 500 and 300 make one row of 2 orders worth 800 under the first order's name |
| Admin.StatusIsNotAccounted | admin.js:63-64 | dashboard figures and customer list ignore order status |
| Admin.WithStatus | admin.js:89-91 | there is no result exactly when no order has the id; otherwise only the first such order's status changes |
| Admin.UpdateStatus | admin.js:87-95 | the history is rewritten with the new status when the id exists, and is not written otherwise |
| Admin.StatusUpdateEffects | admin.js:91 | a status change keeps the accounts, tracking shows the new step, and "delivered" turns the banner off |
| Admin.NewItem | admin.js:176-185 | the item the product form builds from its fields, the id and the uploaded images; `ProductSaved` and `AddedProductIsOrderable` state where it goes |
| Admin.ProductSaved | admin.js:166-194 | rejected exactly when there are no images; a new product gets the clock's id at the end; an edit replaces the first item with the id, or keeps the menu when none has it |
| Admin.DefaultMenuHasImages | admin.js:4-11 | every item of the built-in menu (the constant `Store.DefaultMenu`, the same in both pages) has an image, so the invariant `SaveKeepsImages` preserves holds from the first seeding |
| Admin.SaveKeepsImages | admin.js:171-174 | saving never introduces an item without images |
| Admin.AddedProductIsOrderable | admin.js:177-191 | a product added under a fresh id is what the storefront's add button then puts in the cart |
| Admin.SaveProduct | admin.js:166-194 | the menu, read with the default as fallback, is written back with the saved item unless the form is rejected |
| Admin.DeleteProduct | admin.js:232-238 | after confirmation the stored menu, read with `[]` as fallback, loses every item with the id |
| Admin.DeletedProductIsGone | admin.js:234 | no item with the id remains, adding it to a cart is a no-op, and every other item keeps all its copies |
| Admin.DeleteBeforeSeedingEmptiesCatalog | admin.js:234 | deleting from a never-seeded menu stores `[]`, which seeding then keeps |
| Admin.ClearOrders | admin.js:240 | after confirmation the history key is removed |
| Admin.ClearedHistoryIsEmpty | admin.js:240 | with no history the dashboard reads zero, the customer list is empty, and no order is active or tracked |
| Admin.AddCoupon | admin.js:249-258 | when both prompts answer non-empty text, an active coupon with the upper-cased code is appended, with no duplicate check; otherwise nothing changes |
| Admin.AddedCouponApplies | admin.js:254 | a new coupon is found from its code typed in any case, and is the one applied unless an older active coupon has the same code |
| Admin.DeleteCoupon | admin.js:259-263 | every coupon with exactly that code is removed |
| Admin.DeletedCouponEffects | admin.js:260 | a deleted code no longer applies in any case, and every other code applies as before |

## Left out

- Rendering is not modelled: the DOM, `innerHTML` templates, event wiring, `alert` and `window.location.reload`. Pages that only render are left out for the same reason:
  - `loadMenu`, `loadCoupons`, `showProductDetail`, `prefillForm`, `checkProfile`, `showProfile`;
  - `editProduct` and `renderPreviews`, which only fill the product form.
- JSON, `localStorage` and `FileReader` are not modelled. A stored key is a typed slot, which holds a value of the expected shape or no value at all. Stored text that is valid JSON of another shape (`null`, a number, an object) cannot be represented. In the code, `safeParse` returns such a value instead of the fallback (`app.js:19`, `admin.js:16`), and the next `push`, `find` or `filter` on it throws (for example `app.js:182`, `app.js:200`, `app.js:214`, `admin.js:89`, `admin.js:234`, `admin.js:260`). So the fail-soft read does not protect against well-formed JSON of the wrong shape, and the model cannot express that failure.
- `Math.random`, `Date.now()` and `new Date().toISOString()` are parameters. Order-id uniqueness is not modelled because the code does not ensure it. `Storefront.IdCollisionHidesOrder` shows what a collision does.
- Pricing.Discount: computes `floor(subtotal * d / 100)` on exact integers. The code multiplies by `d / 100` in floating point, which can be off by one (100 x 0.29).
- Floating point is not modelled: JavaScript numbers are doubles, and the model uses unbounded integers, so sums beyond 2^53 are not modelled. `rating` is kept as a display-only real.
- Admin.SaveProduct: the edited id, price, rating and reviews arrive already parsed. `parseInt`/`parseFloat` returning NaN, and `JSON.parse` of the reviews field failing, are not modelled.
- Admin.AddCoupon: the parsed discount is a parameter. A non-numeric discount, which the code stores as NaN, is not modelled.
- Js.ToUpperCase: covers ASCII letters only. JavaScript also upper-cases non-ASCII letters, some into two characters.
- Storefront.StepOf: treats the status as plain text. Keys inherited from `Object.prototype` (a status such as "constructor") are not modelled.
- Admin.Ledger: phone keys inherited from `Object.prototype` ("constructor", "__proto__") are not modelled.
- Admin.PhoneOrder: phone numbers that look like array indices (below 2^32 - 1) are not modelled. `Object.entries` lists such keys first, in ascending numeric order.
- Cart lines are modelled as the copied menu item plus a quantity. This stands for the code's flattened `{...item, quantity}` object, whose `id`, `name` and `price` are the item's.
- Concurrent tabs are not modelled. Each operation reads the store afresh, as the code does.
