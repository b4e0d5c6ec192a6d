# Pizza storefront: cart, session and item builder

A Dafny model of the state logic of a client-side pizza storefront. The rest of
the application is page markup. The model covers three parts:

- **The cart store** (`hooks/use-cart.ts`, module `Cart`). It holds an ordered
  list of line items keyed by the pair (pizza id, size). Adding an item with a
  key already present adds to that entry's quantity. Price, name and image stay
  those of the first add. Adding a new key appends an entry at the end. An entry
  can be removed by key. Its quantity can be set, and a quantity of zero or less
  removes it. The cart can be cleared. The total is recomputed from the entries.
  After every add, remove or update, the list is written to the persisted key
  "pizza-cart". Clearing deletes that key.
- **The session store** (`hooks/use-auth.ts`, module `Auth`). There is at most
  one signed-in user, persisted under "pizza-user". `login` derives the display
  name from the email: the text before the first `@`. `register` stores the name
  as given. `logout` clears the user and the persisted key.
- **The pizza modal** (`components/pizza-modal.tsx`, module `PizzaModal`). It
  has the size-surcharge table and a quantity selector that cannot go below one.
  It is the only code that builds a cart item: unit price = base price +
  surcharge, with the selected size and quantity.

Prices are integer cents. The surcharges of $0, $2 and $4 are 0, 200 and 400.
Each store is a class. Its fields are the in-memory state, the loaded flag and
the persisted copy (`stored`, an `Option`). Methods replace the state through
pure list functions (`AddItem`, `RemoveKey`, `SetQuantity`) that mirror the
source's `find`/`map`/`filter`/append expressions. Each class has a `Valid()`
invariant that all of its methods preserve:

- For the cart: reloading from the persisted copy gives the in-memory cart.
  The one exception is before the initial load, while the cart is still empty.
- For the session: a current user is always the persisted one, and after the
  load the two agree.

Behaviours of the code that the model keeps:

- **Cart load.** With nothing valid stored, the load leaves the cart unchanged.
  It does not reset it. At mount the cart is empty, so the result is the same.
- **Session load.** The session's load does not catch a parse failure: a
  malformed persisted user record makes it throw (see Left out).
- **Duplicate keys.** When the cart already holds two entries with the same key
  (which only a hand-edited persisted copy could produce), `addToCart` and
  `updateQuantity` change every matching entry. `AddItem` and `SetQuantity` do
  the same. Their single-entry descriptions are stated under unique keys. All
  three list operations preserve unique keys.
- **`handleCheckout`.** It is defined in the modal but no button uses it. It is
  modelled anyway as `Modal.Checkout`.

## Model

| member | source | states |
|---|---|---|
| `Cart.Find` | hooks/use-cart.ts:23 | the result is the position of the first entry with key (id, size); None exactly when no entry has that key |
| `Cart.AddItem` | hooks/use-cart.ts:21-31 | built from `Find` and `MergeQuantity` (the `map` of lines 26-28); a new key is appended at the end (earlier entries in order, length + 1); a present key, with unique keys, becomes the same list with only that entry's quantity raised by the added quantity (price, name, image, length and other entries unchanged); the key is present afterwards; unique keys stay unique; positive quantities stay positive when the added quantity is positive |
| `Cart.RemoveKey` | hooks/use-cart.ts:39 | an entry survives exactly when it was there and does not carry the key; an absent key is a no-op; never longer than before |
| `Cart.RemoveDeletesEntry` | hooks/use-cart.ts:37-43 | with unique keys, removing a present key deletes exactly the entry at its position; the entries before and after keep their order |
| `Cart.RemoveKeyAppend` | hooks/use-cart.ts:39 | removal distributes over concatenation, so it never reorders the entries it keeps |
| `Cart.RemoveKeepsInvariants` | hooks/use-cart.ts:39 | removal keeps keys unique and quantities positive |
| `Cart.SetQuantity` | hooks/use-cart.ts:51-52 | length unchanged; an absent key is a no-op; with unique keys, only the matching entry changes, and its quantity becomes exactly the given value (an absolute set, not a delta); unique keys stay unique; a positive quantity keeps quantities positive |
| `Cart.Subtotal` | hooks/use-cart.ts:65 | the empty cart totals 0 |
| `Cart.SubtotalAppend` | hooks/use-cart.ts:65 | the total of a concatenation is the sum of the totals, so the total is the sum of price × quantity over all entries |
| `Cart.SubtotalAfterAdd` | hooks/use-cart.ts:21-31 | an add raises the total by the added line's total for a new key, and by the existing entry's price × the added quantity for a present key |
| `Cart.SubtotalAfterRemove` | hooks/use-cart.ts:37-43 | a removal lowers the total by exactly the removed entry's line total (by 0 for an absent key) |
| `Cart.SubtotalAfterSetQuantity` | hooks/use-cart.ts:51-55 | setting a quantity changes the total by the entry's price × the change in quantity (0 for an absent key) |
| `Cart.SubtotalNonNegative` | hooks/use-cart.ts:65 | with non-negative prices and positive quantities the total is never negative |
| `Cart.RepeatedAddsMerge` | hooks/use-cart.ts:21-31 | any number of adds of one key to a cart without that key produce exactly one new entry, at the end, with the first add's price, name and image and the sum of all added quantities |
| `Cart.TwoAddsOfOneKey` | hooks/use-cart.ts:23-28 | adding pizza 1 medium at 14.99 once and then twice more gives one entry of quantity 3 and a total of 44.97 |
| `Cart.AddThenZeroQuantity` | hooks/use-cart.ts:47-50 | adding pizza 2 large and then updating it to quantity 0 leaves the cart empty |
| `Cart.CartStore.constructor` | hooks/use-cart.ts:6-7 | the hook starts with an empty cart, not loaded, over whatever is in storage |
| `Cart.CartStore.Load` | hooks/use-cart.ts:9-19 | the load sets the loaded flag; a valid stored list becomes the cart, and otherwise the cart is kept; afterwards the cart equals what the persisted copy restores to |
| `Cart.CartStore.AddToCart` | hooks/use-cart.ts:21-35 | the new cart is `AddItem` of the old one, and the persisted copy equals the new cart |
| `Cart.CartStore.RemoveFromCart` | hooks/use-cart.ts:37-43 | the new cart is `RemoveKey` of the old one, and the persisted copy equals the new cart |
| `Cart.CartStore.UpdateQuantity` | hooks/use-cart.ts:45-58 | a quantity ≤ 0 gives the same cart as a removal; a positive one gives `SetQuantity`; the persisted copy equals the new cart |
| `Cart.CartStore.ClearCart` | hooks/use-cart.ts:60-63 | the cart becomes empty and the persisted copy is deleted |
| `Cart.CartStore.Total` | hooks/use-cart.ts:65 | the total is recomputed from the current cart; it is 0 for an empty cart |
| `Auth.LocalPart` | hooks/use-auth.ts:21 | the name is a prefix of the email and contains no '@'; when it is shorter than the email, the next character is '@'; so it is the text before the first '@', or the whole email when there is none |
| `Auth.LocalPartOfAddress` | hooks/use-auth.ts:21 | `local@domain` with no '@' in `local` gives `local`, whatever the domain |
| `Auth.JaneSignsIn` | hooks/use-auth.ts:17-23 | logging in as jane@example.com gives the name "jane" |
| `Auth.LoginRecord` | hooks/use-auth.ts:17-23 | the login record has the given email, the email's local part as its name, and the given id and creation time |
| `Auth.LoginIgnoresPassword` | hooks/use-auth.ts:17-23 | with the same id and creation time, login builds the same record whatever the password |
| `Auth.RegisterRecord` | hooks/use-auth.ts:29-35 | the register record keeps the name exactly as given, with the given email, id and creation time |
| `Auth.Session.constructor` | hooks/use-auth.ts:6-7 | the hook starts with no user, not loaded |
| `Auth.Session.Load` | hooks/use-auth.ts:9-15 | the load sets the loaded flag; a stored record becomes the user, and otherwise the user is kept; afterwards the user equals the persisted record |
| `Auth.Session.Login` | hooks/use-auth.ts:17-27 | the returned login record becomes the only current user and the persisted record |
| `Auth.Session.Register` | hooks/use-auth.ts:29-39 | the returned register record becomes the only current user and the persisted record |
| `Auth.Session.Logout` | hooks/use-auth.ts:41-44 | the user becomes none and the persisted record is deleted |
| `PizzaModal.SurchargeSteps` | components/pizza-modal.tsx:19-23 | the size table `Surcharge` adds 0 for small, 2.00 for medium and 4.00 for large: each size up costs 2.00 more |
| `PizzaModal.BuildItem` | components/pizza-modal.tsx:29-36 | the built item has the pizza's id, name and image, a unit price of base price + `Surcharge(size)` (line 32), and the selected quantity and size |
| `PizzaModal.Modal.constructor` | components/pizza-modal.tsx:11-12 | the selector starts at quantity 1 and size medium |
| `PizzaModal.Modal.Decrement` | components/pizza-modal.tsx:108 | the quantity drops by one, but not below 1; the size is kept |
| `PizzaModal.Modal.Increment` | components/pizza-modal.tsx:115 | the quantity rises by one; the size is kept |
| `PizzaModal.Modal.SelectSize` | components/pizza-modal.tsx:91 | the size becomes the chosen one; the quantity is kept |
| `PizzaModal.Modal.DisplayedTotal` | components/pizza-modal.tsx:127-131 | the amount shown as both subtotal and total equals the cart total of a cart holding only the item being built |
| `PizzaModal.Modal.AddToCart` | components/pizza-modal.tsx:25-36 | the cart receives exactly the built item through its add, and its persisted copy follows |
| `PizzaModal.Modal.Checkout` | components/pizza-modal.tsx:47-53 | with no signed-in user, the cart is untouched and the result asks for the login page; otherwise it behaves like Add to Cart |
| `PizzaModal.BuiltItemKeepsQuantitiesPositive` | components/pizza-modal.tsx:29-36 | an item built from a selector quantity ≥ 1 keeps every quantity in the cart positive |
| `PizzaModal.CartTotalGrowsByDisplayedTotal` | components/pizza-modal.tsx:127-131 | adding a new pizza-and-size raises the cart total by exactly (base price + surcharge) × quantity, the amount the modal displays |

## Left out

- Prices: the source uses floating-point dollars, and the model uses integer cents. Display rounding (`toFixed(2)`) is not modelled.
- Storage and JSON: browser storage and the JSON encoding are replaced by the `stored` fields. A cart value that is absent, empty or fails to parse is `None`; one that parses is a list of items. The logged parse error is not modelled.
- `Cart.CartStore.Load`: a stored cart value that parses as JSON but is not a list of items (`null`, `{}`, `42`) becomes the source's cart anyway, and `total`'s `reduce` then throws. `stored` is an `Option<seq<Item>>`, which cannot represent such a value.
- `Auth.Session.Load`: a persisted user record that fails to parse makes the source's load throw before the loaded flag is set. The model assumes the record is either absent or well-formed.
- Hook instances: each component that calls the hooks gets its own state, shared only through storage. The model has one instance of each store.
- Randomness and clock: user ids come from a random generator and creation times from the clock. Both are parameters of `Login` and `Register`.
- Sizes: a size is a three-valued type rather than a string. The modal's table is the only source of sizes.
- `Cart.CartStore.AddToCart`: like the source, it accepts any quantity. Positive quantities are guaranteed by the producer (`PizzaModal.BuiltItemKeepsQuantitiesPositive`), not by the cart.
- Timing and UI state: the modal's `isAdding` and `showSuccess` flags, the delays before adding and before closing, and the disabled state of the button are timing and display, not logic.
- Navigation: the redirect to the login page is the boolean result of `Modal.Checkout`.
- Checkout fees: the delivery fee and tax arithmetic on the checkout and cart pages is floating-point display arithmetic outside these three files.
- Other app parts: the static catalog, its category filter, the mock order history, page layouts and the login form's empty-field check are page code, not part of this model.
