# Shopping cart state model

This project models the cart of a small catalog page (`script.js`). The
cart is an ordered list of entries. Each entry is a product and a quantity, and
entries are looked up by the product's id. Products are immutable records
(id, name, price, image). The cart has three mutating operations:

- `addItem` raises the quantity of the product's entry, or appends a new entry.
- `updateItemQuantity` sets an entry's quantity and drops the entry when that
  quantity is not positive.
- `removeItem` filters the product's entries out.

It has two aggregates, the item count and the total price. An entry's price is
its product's price times its quantity.

Layout:

- `cart_model.dfy`, module `CartModel`: the value level.
  - `Product` and `CartItem` datatypes.
  - `IndexOf` models `Array.prototype.find`, `Without` models `filter`, and
    `FoldSum` models `reduce`.
  - `SumOf` is the reference sum. `Added` and `Updated` give the contents after
    `addItem` and `updateItemQuantity`.
  - The lemmas about these functions, and `Run`, which applies any sequence of
    operations (`Op`).
- `shopping_cart.dfy`, module `ShoppingCarts`: the class `ShoppingCart`.
  - It has a `seq<CartItem>` field `items`, which its methods reassign.
  - A `refreshes` counter stands in for the display refresh that every
    mutation requests.
  - Two client sessions drive the class through its method contracts alone.

The object invariants are "no two entries share a product id" (`UniqueIds`) and
"every quantity is at least one" (`AllPositive`). The methods do not require
them, because the source does not. The methods prove that both invariants are
preserved. Positivity on the add path is preserved only when the added quantity
is at least one.

The model follows the code, including where it behaves unexpectedly:

- `updateItemQuantity` with a non-positive quantity calls `removeItem`, which
  redraws the display, and then redraws it again itself. That path therefore
  requests two refreshes, not one (`UpdateItemQuantity`'s `refreshes` clause).
- `addItem` does not check the quantity. Adding a zero or negative quantity
  for a new product creates an entry with that quantity, and adding one to an
  existing entry can leave it non-positive.
- When `addItem` finds an existing entry, that entry keeps the product object
  it already holds. The price increase is therefore the stored product's price
  times the quantity (`UnitPrice`). It equals the given product's price
  whenever the cart agrees with the catalog (`AgreesWith`).
- `removeItem` filters out every entry for the id, not only the first one.
  `updateItemQuantity` and `addItem` touch only the first entry `find` returns.
  With unique ids these are the same entry (`IndexOfUnique`, `WithoutUnique`).

## Model

| member | source | states |
|---|---|---|
| `CartModel.IndexOf` | script.js:29 | the index found holds an entry for the id and no earlier entry does; None exactly when no entry has the id |
| `CartModel.IndexFrom` | script.js:29 | scanning from a position past which no entry had the id, the result is the first entry for the id at or after it, or None exactly when no entry has the id |
| `CartModel.IndexOfUnique` | script.js:40 | with unique ids, the lookup of an entry's id finds that very entry |
| `CartModel.ItemTotalPrice` | script.js:17-19 | an entry's price is its product's price for one unit, zero for none, and at least the unit price for one or more units of a non-negative price |
| `CartModel.FoldSum` | script.js:58 | the left fold from an accumulator equals the accumulator plus the reference sum of the entries |
| `ShoppingCarts.ShoppingCart.TotalItems` | script.js:57-59 | the item count is the sum of all entries' quantities, and 0 for an empty cart |
| `ShoppingCarts.ShoppingCart.TotalPrice` | script.js:62-64 | the total price is the sum over entries of price times quantity (`ItemTotalPrice`, lines 17-19), and 0 for an empty cart |
| `CartModel.Without` | script.js:52 | the filtered list is no longer, holds no entry for the id, and equals the input when the id is absent |
| `CartModel.WithoutMembers` | script.js:52 | an entry survives filtering exactly when it was in the list and is for another id |
| `CartModel.WithoutAppend` | script.js:52 | filtering distributes over concatenation, so the survivors keep their relative order |
| `CartModel.WithoutUnique` | script.js:52 | with unique ids, removing an entry's id removes just that entry: prefix and suffix around it remain |
| `CartModel.WithoutPreservesUnique` | script.js:52 | removal keeps product ids unique |
| `CartModel.WithoutPreservesPositive` | script.js:52 | removal keeps every quantity positive |
| `CartModel.SumWithout` | script.js:51-64 | with unique ids, removal lowers any per-entry sum (item count, total price) by exactly the removed entry's share |
| `CartModel.WithoutReplaced` | script.js:42-44 | overwriting the entry for an id and then filtering the id gives the same list as filtering it directly |
| `CartModel.Added` | script.js:28-34 | for a present id, the first entry's quantity rises by the amount, its product is kept, and every other entry and the length are unchanged; for an absent id, exactly one entry `(product, quantity)` is appended after the untouched old entries |
| `CartModel.UnitPrice` | script.js:29-31 | the price an add is charged at is the given product's price whenever the cart agrees with that product |
| `CartModel.AddedPreservesUnique` | script.js:29-33 | adding keeps product ids unique |
| `CartModel.AddedPreservesPositive` | script.js:32-33 | adding a quantity of at least one keeps every quantity positive |
| `CartModel.AddedTotals` | script.js:28-36 | adding raises the item count by the quantity and the total price by unit price times quantity (the given product's price when the cart agrees with it) |
| `CartModel.Updated` | script.js:39-46 | an absent id leaves the list unchanged; a non-positive quantity leaves no entry for the id, the same as removal; a positive one sets the first entry's quantity to exactly that value and changes nothing else |
| `CartModel.UpdatedPreservesUnique` | script.js:39-46 | updating keeps product ids unique |
| `CartModel.UpdatedPreservesPositive` | script.js:39-46 | updating, with any quantity, keeps every quantity positive |
| `CartModel.UpdatedTotals` | script.js:39-46 | with unique ids, updating entry i swaps its share of any per-entry sum for that of the new quantity, or drops the share when the entry is removed |
| `CartModel.RunPreservesUnique` | script.js:28-54 | no sequence of add, update and remove operations ever creates two entries for one product id |
| `CartModel.RunPreservesPositive` | script.js:28-54 | when every add in the sequence is of at least one, every quantity stays at least one |
| `CartModel.IndexOfReplaced` | script.js:29-31 | raising the quantity of the first entry for an id leaves it the first entry for that id |
| `CartModel.RepeatedAdds` | script.js:29-31 | in any cart that already holds the product, successive adds accumulate on its first entry: it keeps its stored product, its quantity rises by the sum of the amounts, and every other entry is unchanged |
| `CartModel.RepeatedAddsToNew` | script.js:28-34 | in any cart that does not hold the product, successive adds (at least one) append a single entry whose quantity is the sum of the amounts, after the untouched old entries |
| `CartModel.RepeatedAddsFromEmpty` | script.js:28-34 | from an empty cart, successive adds of one product give a single entry whose quantity is the sum of the amounts |
| `CartModel.AddedPreservesAgreement` | script.js:29-33 | adding a product that agrees with a catalog product keeps every entry for that id holding the catalog product |
| `CartModel.UpdatedPreservesAgreement` | script.js:39-46 | updating never replaces an entry's product, so agreement with a catalog product is kept |
| `CartModel.WithoutPreservesAgreement` | script.js:52 | removal keeps agreement with a catalog product |
| `CartModel.RunPreservesAgreement` | script.js:28-54 | when every added product comes from a catalog with unique ids and the cart starts out agreeing with it, the cart still agrees after any sequence of operations |
| `CartModel.SessionChargesCatalogPrices` | script.js:28-36 | from an empty cart and catalog products only, the unit price an add is charged at is always the catalog price, so `AddItem` raises the total by catalog price times quantity |
| `ShoppingCarts.ShoppingCart.constructor` | script.js:23-25 | a new cart is empty and has requested no refresh |
| `ShoppingCarts.ShoppingCart.UpdateCartDisplay` | script.js:68-70 | a redraw request raises the refresh count by one and changes nothing else |
| `ShoppingCarts.ShoppingCart.AddItem` | script.js:28-36 | the new contents are `Added` of the old; one refresh; unique ids are kept; positivity is kept for a quantity of at least one; the item count rises by the quantity and the total price by unit price times quantity |
| `ShoppingCarts.ShoppingCart.UpdateItemQuantity` | script.js:39-48 | the new contents are `Updated` of the old; two refreshes when an entry is dropped, one otherwise; unique ids and positivity are kept |
| `ShoppingCarts.ShoppingCart.RemoveItem` | script.js:51-54 | the new contents are the old ones with the id filtered out; one refresh; unique ids and positivity are kept |
| `ShoppingCarts.RepeatedAddSession` | script.js:28-36 | adding a product once and then twice more gives 3 items costing 3 times its price |
| `ShoppingCarts.DropToZeroSession` | script.js:39-54 | adding two products and setting the first to 0 leaves only the second, 1 item, and 4 refresh requests |

## Left out

- The content of `updateCartDisplay` (DOM queries, HTML templating, button listeners, the `toFixed` formatting) is presentation. Only the fact that a refresh is requested is modelled, as the `refreshes` counter.
- `displayProducts`, `showNotification` and its 3-second timer, the modal show/hide handlers and the start-up handler are DOM and timing plumbing with no cart logic.
- The `productsData` catalog is used only for two fixtures (`MacBookPro`, `IPhone15`) in the sessions.
- JavaScript `Number` arithmetic is not modelled. Prices and quantities are unbounded integers, which the integer catalog prices allow. Rounding and overflow of large floating-point totals are out of scope.
- Product ids are integers compared with `==`, as the catalog's ids are. JavaScript's `===` on ids of other types is not modelled.
- Entries are values: `existingItem.quantity += quantity` becomes a replacement of that entry in `items`. Aliasing of entry objects is not modelled. This matters only to the display's button closures, which are left out.
- `tailwind.config.js` is styling configuration with no logic.
