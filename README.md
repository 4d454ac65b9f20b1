# Shopping-cart store

This project models the storefront's shopping cart (`src/cart.js`) in Dafny.
The cart is one mutable object with an `items` list. It has three operations
that change the list and one derived value:

- `addItem(item)` pushes a shallow copy of the item, tagged with a fresh `cartId`.
- `removeItem(cartId)` replaces the list with the entries whose `cartId` differs.
- `clearCart()` replaces the list with an empty one.
- The `total` getter folds over the list and sums `item.price || 0`.

There are two modules:

- `JsValues` (`js_values.dfy`) holds the JavaScript value semantics the cart
  relies on. A plain object is a `map<string, Value>`. Reading a missing field
  yields `undefined`. It also defines truthiness, `||`, and the `+` of a
  running sum, which becomes a string as soon as one operand is a string.
- `CartStore` (`cart.dfy`) holds:
  - the entry that `addItem` builds (`Tagged`);
  - the filter that `removeItem` applies (`Without`, with its complement `WithCartId`);
  - the fold behind `total` (`TotalOf`, a left fold like `reduce`);
  - an independent reference sum (`PriceSum`);
  - the class `Cart`, whose field `items` the three methods reassign, and whose
    function `Total()` is the getter.

The object invariant `Cart.Valid()` says that every entry carries a numeric
`cartId`. That holds because entries only come from `addItem`.

## Model

| member | source | states |
|---|---|---|
| CartStore.Tagged | src/cart.js:7-10 | the new entry has every field of the item except `cartId`, which is the fresh id even if the item already had one; its field set is the item's plus `cartId` |
| CartStore.TaggedPrice | src/cart.js:7-10 | tagging leaves the price alone, so the new entry adds to the total exactly what the item's own price adds |
| CartStore.Without | src/cart.js:14 | the filter never lengthens the list; an entry survives if and only if it was in the list and its `cartId` differs from the argument |
| CartStore.WithCartId | src/cart.js:14 | the entries the filter drops are exactly those whose `cartId` equals the argument |
| CartStore.WithoutConcat | src/cart.js:14 | filtering distributes over concatenation, so survivors keep their original relative order |
| CartStore.WithoutUnchanged | src/cart.js:14 | the list is unchanged, and equivalently keeps its length, if and only if no entry carries the id |
| CartStore.WithoutIdempotent | src/cart.js:14 | removing the same `cartId` twice gives the same list as removing it once |
| CartStore.WithoutCommutes | src/cart.js:14 | removals by two different ids give the same list in either order |
| CartStore.PriceTerm | src/cart.js:22 | the price-or-zero summand of the fold: a falsy price adds 0, a number adds itself, `true` adds 1, a non-empty string turns the sum into a string |
| CartStore.TotalOf | src/cart.js:21-23 | the `reduce` total of an empty list is 0, and the total is a string exactly when some entry has a non-empty string price |
| CartStore.Cart.Total | src/cart.js:21-23 | the `total` getter of an empty cart is 0, and it is a string exactly when some entry has a non-empty string price |
| CartStore.TotalOfConcat | src/cart.js:21-23 | the `reduce` total distributes over concatenation of entry lists; exact when no price is a non-empty string, otherwise it says only that both sides are strings |
| CartStore.TotalOfIsPriceSum | src/cart.js:21-23 | the total of an empty list is 0; otherwise the total is the arithmetic sum of the price amounts, unless some price is a non-empty string, in which case the result is a string |
| CartStore.TotalAfterRemove | src/cart.js:13-23 | the total before a removal equals the total after it plus the total of exactly the removed entries; exact when no price is a non-empty string, otherwise it says only that both sides are strings |
| CartStore.WithoutSplits | src/cart.js:14 | the kept and the dropped entries together are exactly the entries of the list, counted with multiplicity, and their lengths add up to the list's length |
| CartStore.AddThenRemove | src/cart.js:6-15 | adding an item under an id no entry carries and then removing that id gives back the original list |
| CartStore.Cart.constructor | src/cart.js:3-4 | the store starts with an empty `items` list |
| CartStore.Cart.AddItem | src/cart.js:6-11 | the list grows by exactly one tagged entry at the end, and the earlier entries are unchanged and in order; the total grows by the item's price term |
| CartStore.Cart.RemoveItem | src/cart.js:13-15 | the new list is the order-preserving filter of the old one, and no entry with that id remains; the length never grows; the list is unchanged if and only if no entry had the id, and in particular when the argument is not a number; the old total is the new total plus the removed entries' total, exact when no price is a non-empty string and otherwise saying only that both sides are strings |
| CartStore.Cart.ClearCart | src/cart.js:17-19 | the list is empty and the total is 0 |

## Left out

- `cartId` generation (`Date.now() + Math.random()`, src/cart.js:9) depends on the clock and on randomness. `AddItem` takes the id as an integer parameter. The model does not claim that ids are unique. `AddThenRemove` assumes the id is new.
- Numbers are integers. Prices stand for minor currency units, and ids are opaque numbers. Floating-point addition, rounding and NaN are not modelled.
- Field values are primitives only: `undefined`, `null`, booleans, numbers and strings. An object or array used as a price, which JavaScript would turn into a string when adding, is not modelled.
- CartStore.TotalOfConcat: JavaScript string `+` is neither associative nor commutative in its text, so when some price is a non-empty string this equation holds only in the abstraction that records "the sum is a string"; it is exact only when no price is a non-empty string.
- CartStore.TotalAfterRemove: likewise, when some price is a non-empty string both sides are strings but their texts differ in JavaScript (the removed entries' prices are moved to the end); the equation is exact only when no price is a non-empty string.
- CartStore.PriceTerm: when a price is a non-empty string, the sum becomes a string. The model records only that fact. It does not record the concatenated text.
- The spread of an item that is not a plain object (a string spreads its characters) is not modelled. Items are maps of their own fields.
- Aliasing is not modelled. JavaScript stores a shallow copy, and outside code can mutate `cart.items` directly. Dafny values are immutable, and the list changes only through the three methods.
- Vue's `reactive` wrapper (src/cart.js:1-3) only tracks changes for the user interface. It has no behaviour of its own.
- `server/app.py` is not part of this model. Session creation and webhook signature checking happen inside the payment provider's SDK. The file's own logic is thin. It returns the SDK's session-creation errors as a 403 response (server/app.py:46-47). It turns the SDK's payload and signature errors into 400 responses (server/app.py:61-66). It dispatches on the event type with a single branch that logs the id of a completed checkout session (server/app.py:69-72).
- `src/navigation.js` holds user-interface scroll state, and `src/main.js` mounts the app. Neither is part of this model.
