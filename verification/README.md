# Cart store of the almajo storefront, in Dafny

This project models the shopping-cart store of the vanilla storefront script
`cart.js`. The cart is an ordered list of line items. Each line has a product
id, a transaction type (`'compra'`, purchase, or `'alquiler'`, rental), a size,
a quantity, a price, a number of days, a name and an image. A line is identified
by the pair (product id, type). The size is not part of that key.

The model follows the source closely:

- The module-level `cart` variable becomes an immutable `seq<Item>`. Each store
  operation (`addToCart`, `removeFromCart`, `updateQuantity`, `clearCart`,
  `handleCheckout`, `getTotals`, `loadCart`) is a pure function, or a method
  in the case of `getTotals`.
- Prices are integer euro cents: the catalog's 89.99 becomes 8999. A price that
  JavaScript would leave `undefined` is `None`.
- The `products` catalog is a constant map from id to name, optional sale
  price, optional rental price and image.
- JavaScript's falsy fallbacks are spelled out:
  - `price || catalogPrice`: a missing price or a price of 0 falls back to the catalog.
  - `item.price || 0` in the totals.
  - `item.days || 1` in the totals: a stored day count of 0 counts as one day.
  - The default parameter `days = 1`: `None` for `days` means the argument was omitted.
- `updateCartUI` is reduced to what it changes: the badge count and the saved
  snapshot. Both are fields of a `Store` value. Local storage plus `JSON.parse`
  becomes a `Saved` value: nothing stored, unparsable, or a parsed list of
  lines.

Modules: `Wrappers` (Option), `Catalog` (the product table), `CartOps` (the
operations), `CartLaws` (order, idempotence, count and well-formedness laws),
`CartTotals` (`getTotals` and its laws), `CartStore` (persistence, badge and
start-up), `CartScenarios` (concrete sessions against the real catalog).

Four behaviours of `cart.js` a reader might not expect:

- `removeFromCart` filters out every line with the key. With distinct keys
  this is at most one line (`CartLaws.RemoveDropsOneLine`).
- The totals use the price stored on each line when it was added, not the
  catalog's current price.
- A new line's day count comes from the `days` argument, which defaults to 1.
- When nothing is stored, `loadCart` leaves the current state alone. At
  start-up the cart is empty anyway, so the result is an empty cart.

`renderCart` lists as rentals only the lines whose type is exactly
`'alquiler'` (cart.js:172). `getTotals` counts every line that is not
`'compra'` as a rental (cart.js:125). With a two-valued type the two agree, so
the mismatch only matters for a type string outside those two values, which
this model cannot express.

## Model

| member | source | states |
|---|---|---|
| Catalog.CatalogPricesWellFormed | cart.js:22-35 | every catalog product has exactly one of the two prices, and it is positive |
| CartScenarios.CatalogPrices | cart.js:23-30 | the catalog prices used in the scenarios: product-1 sells at 8999 cents, rental-2 rents at 10800, rental-1 has no sale price |
| Catalog.Lookup | cart.js:53 | a catalog id gets its own entry and any other id the placeholder with the name 'Producto' and no prices or image; these two clauses only unfold the fallback. Whatever the id, a price that is present is positive |
| CartOps.ChosenPrice | cart.js:54 | a truthy caller price is kept; the stored price is never 0, so a falsy price is always an absent one; without a truthy caller price an unknown id gets no price |
| CartOps.NewItem | cart.js:53-65 | the new line carries the key, the given size, quantity 1, the given days or 1, the chosen price, and the name and image of the catalog entry ('Producto' and no image for an unknown id) |
| CartOps.Bump | cart.js:47-51 | same length; every matching line has its quantity raised by 1 and every other line is unchanged |
| CartOps.SetQuantity | cart.js:102-106 | same length; every matching line has quantity q and every other line is unchanged |
| CartOps.CartCount | cart.js:135 | the badge of an empty cart is 0, and a cart whose lines all hold at least one unit shows at least one unit per line, so such a cart shows 0 only when it is empty |
| CartLaws.CatalogPriceFallback | cart.js:53-54 | without a price argument, a new line of a catalog product gets a price exactly when the product is offered in that mode (sale for a purchase, rental for a rental); an unknown product never gets one |
| CartOps.AddToCart | cart.js:41-66 | afterwards the key is present. If the key existed, the length is unchanged, every line keeps all fields except quantity, and the quantity rises by exactly 1 on matching lines and 0 on others, so the new size, price and days are discarded. Otherwise exactly one line is appended at the end with the given size, quantity 1, days defaulting to 1, the caller's price when it is truthy or else the catalog's sale price (purchase) or rental price (rental), and the catalog name and image ('Producto' and no image for an unknown id), and the old lines are kept as a prefix |
| CartOps.RemoveFromCart | cart.js:88-91 | no line with the key remains; a cart without the key is returned unchanged |
| CartOps.UpdateQuantity | cart.js:96-108 | a quantity of 0 or less gives exactly removeFromCart's result. A positive quantity keeps the length and order, sets that quantity on the matching lines only, changes no other field and adds no line. Nothing changes when the key is absent |
| CartOps.ClearCart | cart.js:111-115 | the cart is empty afterwards |
| CartOps.HandleCheckout | cart.js:214-221 | an empty cart is left unchanged; a non-empty cart is emptied |
| CartLaws.RemoveMembership | cart.js:89-91 | a line survives removal exactly when it was in the cart and has another key |
| CartLaws.RemovePartition | cart.js:89-91 | the kept lines and the dropped lines together are, as a multiset, the original lines |
| CartLaws.RemoveConcat | cart.js:89-91 | removal works piecewise over concatenation, so the surviving lines keep their original relative order |
| CartLaws.RemoveSingle | cart.js:89-91 | a single line is kept exactly when it carries another key |
| CartLaws.RemoveIdempotent | cart.js:88-91 | removing the same key twice is the same as removing it once |
| CartLaws.RemoveCommutes | cart.js:88-91 | removing two keys gives the same cart in either order |
| CartLaws.RemoveDropsOneLine | cart.js:88-91 | in a cart with distinct keys, removal drops exactly one line when the key is present and none otherwise |
| CartLaws.SumPermutation | cart.js:122-128 | a sum over the lines does not depend on their order |
| CartLaws.CountAfterAdd | cart.js:41-66 | the badge count rises by 1 for a new key, and otherwise by the number of lines already carrying the key |
| CartLaws.AddRaisesCountByOne | cart.js:41-66 | in a cart with distinct keys, every addToCart raises the badge count by exactly 1 |
| CartLaws.CountAfterRemove | cart.js:88-91 | removal lowers the badge count by exactly the quantities of the dropped lines |
| CartLaws.CountSetQuantity | cart.js:102-106 | setting the matching lines to q replaces each of their quantities by q in the count |
| CartLaws.CountAfterUpdate | cart.js:96-108 | in a cart with distinct keys, updateQuantity removes the key's quantity from the count and, for a positive q on a present key, adds q |
| CartLaws.WithKeyAtMostOne | cart.js:42-51 | in a cart with distinct keys, a key names at most one line, and exactly one when it is present |
| CartLaws.AddPreservesWellFormed | cart.js:41-66 | addToCart keeps keys pairwise distinct and every quantity at least 1 |
| CartLaws.RemovePreservesWellFormed | cart.js:88-91 | removeFromCart keeps keys pairwise distinct and every quantity at least 1 |
| CartLaws.UpdatePreservesWellFormed | cart.js:96-108 | updateQuantity keeps keys pairwise distinct and every quantity at least 1, because a quantity of 0 or less removes the line |
| CartLaws.RunPreservesWellFormed | cart.js:41-115 | any sequence of add, remove, update, clear and checkout keeps a well-formed cart well-formed |
| CartLaws.ReachableIsWellFormed | cart.js:41-115 | every cart reached from the empty cart has pairwise distinct (productId, type) keys and quantities of at least 1 |
| CartTotals.GetTotals | cart.js:118-130 | the one-pass accumulation returns purchaseTotal, the sum of (price or 0) × quantity over purchase lines, and rentalTotal, the sum of (price or 0) × (days or 1) × quantity over every other line. total is their sum, which is also the sum of the line totals, so an empty cart totals 0 |
| CartTotals.TotalIsSumOfLines | cart.js:122-130 | each line is counted once, in exactly one of the two subtotals |
| CartTotals.LineIsUnitTimesQuantity | cart.js:124-126 | a line's contribution is its unit value (price, times days for a rental) times its quantity |
| CartTotals.TotalsIgnoreOrder | cart.js:122-128 | two carts with the same lines in any order have the same subtotals and total |
| CartTotals.TotalsOfConcat | cart.js:122-128 | the subtotals of two concatenated carts are the sums of their subtotals |
| CartTotals.TotalsAfterRemove | cart.js:118-130 | after removeFromCart each subtotal drops by exactly the dropped lines' share |
| CartTotals.LineAfterBump | cart.js:49 | one more unit on a line adds one unit value to its total |
| CartTotals.LinesAfterBump | cart.js:47-51 | raising every matching line by one adds the unit values of those lines to the total |
| CartTotals.TotalAfterAdd | cart.js:41-66 | in a cart with distinct keys, addToCart raises the grand total by one unit of the line it touches: the existing line's unit value, or the new line's |
| CartStore.LoadCart | cart.js:5-14 | nothing stored leaves the state unchanged, a snapshot that fails to parse gives the empty cart, and a parsed snapshot replaces the cart. The snapshot and the badge are untouched |
| CartStore.UpdateCartUI | cart.js:134-147 | the cart is unchanged, the saved snapshot equals the cart, and the badge shows the sum of all quantities |
| CartStore.Boot | cart.js:299-302 | after start-up the store is in sync. The cart is the stored snapshot, or empty when nothing usable was stored |
| CartStore.Step | cart.js:214-221 | the store's cart follows the cart operation. Checkout of an empty cart changes nothing, not even the snapshot. Every other action leaves the snapshot and badge in sync with the cart |
| CartStore.StepAllKeepsSynced | cart.js:134-147 | a store in sync stays in sync through any sequence of actions |
| CartStore.StepAllProjects | cart.js:41-115 | the store's cart after a sequence of actions is the cart-level run of the same actions |
| CartStore.ReloadRestores | cart.js:5-19 | the saved snapshot of an in-sync store loads back to the same cart, and a fresh start from it restores the same store |
| CartStore.ClearPersistsEmpty | cart.js:111-115 | after clearCart the cart and its saved snapshot are empty and the badge shows 0 |
| CartStore.FreshSessionIsWellFormed | cart.js:5-14 | a session started with nothing stored or a corrupt snapshot keeps distinct keys and positive quantities, and its snapshot reloads to its cart |
| CartScenarios.AddAgain | cart.js:46-51 | adding a key that a one-line cart already holds gives that line with one more unit |
| CartScenarios.AddOther | cart.js:52-65 | adding a key that a one-line cart does not hold appends the new line |
| CartScenarios.MixedCart | cart.js:118-130 | two purchases of a product sold at s cents and one day's rental of a product rented at r cents give purchaseTotal 2·s and rentalTotal r |
| CartScenarios.MixedCartTotal | cart.js:118-130 | two purchases of the 89.99 dress and one day's rental of the 108.00 dress total 287.98 (28798 cents) |
| CartScenarios.SecondSizeIsDiscarded | cart.js:42-51 | adding the same product and type again in another size keeps one line, with the first size and quantity 2 |
| CartScenarios.TypesAreSeparate | cart.js:42-44 | the same product bought and rented gives two separate lines |
| CartScenarios.RentalOnlyBoughtIsFree | cart.js:53-54 | buying a rental-only product without a price stores no price, so the line adds 0 to the totals |

## Left out

- Rendering: the HTML built by `renderCart`, and the image fallback
  (`createImageWithFallback`). These are presentation only.
- Heart/like toggles and `addToCartFromElement`, which only flip CSS classes.
- Toast messages (`showToast`) and their timers. These are presentation, and
  the model has no clock. One consequence is not modelled: a successful
  checkout's message is replaced at once by clearCart's 'Carrito vaciado'
  message, because showToast removes any toast already shown.
- `localStorage` and JSON. Serialisation is abstracted to the `Saved` value.
  The model has no text format. A snapshot that parses to something other than
  a list of lines (for example `null` or a number) is not modelled.
- Floating-point money and `.toFixed(2)` formatting. Money is exact integer
  cents, so the sums never round.
- Type strings other than 'compra' and 'alquiler'. The type is a two-valued
  datatype.
- Explicitly passing `null` as `days`. JavaScript would store `null`; the
  model can only omit the argument (default 1) or pass a number. The totals
  read a stored 0 as one day, the same as they would read `null`.
- Quantities are integers. JavaScript would accept fractional quantities in
  `updateQuantity`.
- Catalog lookups of inherited object properties (such as `constructor`) are
  not modelled. Every id outside the table gets the 'Producto' placeholder.
- The React components (Cart.tsx, ProductCard.tsx, CartItem.tsx,
  ImageWithFallback.tsx). The store they call is not part of this model. Their
  reductions only repeat the totals for display, and the rental summary in
  Cart.tsx deliberately ignores days.
- CartLaws.AddRaisesCountByOne: requires distinct keys. A restored snapshot
  with duplicate keys raises the count by the number of duplicates;
  CartLaws.CountAfterAdd states that general case.
- CartStore.ReloadRestores: assumes that `JSON.parse(JSON.stringify(cart))`
  gives back the same lines. The model has no text format, so the lemma holds
  by construction. For these fields the assumption is sound: strings and
  numbers survive, and an `undefined` price or image is dropped on saving and
  reads back as `undefined`.
