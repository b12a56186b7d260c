# Storefront cart ledger, order total and URL building

A Dafny model of the three pieces of logic in the storefront's front end
that carry invariants:

- **Cart ledger** (`types.dfy`, `cart.dfy`): the cart context keeps an
  ordered list of lines `{product, quantity}` and a loaded flag. The
  operations `addToCart`, `removeFromCart`, `updateQuantity` and `clearCart`
  are pure functions over `seq<CartItem>` (`Added`, `Removed`,
  `QuantityUpdated`); `cartCount` and `cartTotal` are the sums `Count` and
  `Total`. The provider itself is the class `CartProvider`, whose fields are
  the lines and the loaded flag and whose methods apply an operation and then
  run the save effect. Local storage is the class `LocalStorage`, a map from
  keys to stored values (`Blob`). The ledger invariant is `WellFormed`:
  product identities are unique and quantities are at least 1. The
  persistence invariant is `CartProvider.Persisted`: once loaded, the
  "cart" slot holds exactly the current lines.
- **Order total** (`payment.dfy`): `POST /api/create-payment-intent`
  rejects a missing or empty `items` list with 400 "No items in cart". It
  then prices each item from the catalog, taking the first product with the
  item's id; unknown ids add 0. It adds 500 cents of shipping and asks the
  payment gateway for an intent of that amount. `ComputeAmount` is the loop,
  proved against the recursive `Subtotal`. `SubtotalByCatalog` relates it to
  an independent per-product sum.
- **URL building** (`api.dfy`): the base URL (the environment value or
  `http://localhost:1337`), `getStrapiURL`, `getStrapiMedia`, and the
  request URL `base + "/api" + path` with `"?" + query` only for a
  non-empty query.

The environment variable is a parameter (`None` when unset). The catalog
fetch's outcome is a parameter of `Post` (`None` when the fetch failed). The
payment gateway is an object whose answer is a fixed function of the amount
and which logs every intent it is asked to open.

Behaviour of the code worth noting:

- A failed catalog fetch does not abort the route. `fetchAPI` catches the
  error and returns `{data: []}`, so every item is unknown and a non-empty
  order is charged exactly the 500-cent shipping (`Post`,
  `SubtotalEmptyCatalog`).
- A missing, empty or unparsable stored cart does not empty the ledger. The
  load effect leaves the lines as they were, which is the empty list when
  nothing has run before it (`CartProvider.LoadEffect`).
- `removeFromCart` removes every line with the id, not just one. This is the
  same thing in a well-formed cart.

## Model

| member | source | states |
|---|---|---|
| `Api.BaseUrl` | store-frontend/lib/api.ts:5-6 | the environment value when it is set and non-empty, otherwise `http://localhost:1337`; never empty |
| `Api.GetStrapiURL` | store-frontend/lib/api.ts:4-7 | the URL starts with the base URL and what follows the base is exactly `path` |
| `Api.GetStrapiURLDefault` | store-frontend/lib/api.ts:4 | called without a path, the result is the base URL |
| `Api.GetStrapiURLInjective` | store-frontend/lib/api.ts:4-7 | different paths give different URLs |
| `Api.GetStrapiMedia` | store-frontend/lib/api.ts:9-17 | null maps to null and only null does; a URL starting with `http` or `//` is returned unchanged; any other URL becomes base ++ url |
| `Api.MediaOfEmptyIsBase` | store-frontend/lib/api.ts:16 | the empty string resolves to the base URL, not to null |
| `Api.MediaIdempotent` | store-frontend/lib/api.ts:13-16 | when the base starts with `http`, resolving a media URL twice gives the same result as once |
| `Api.RequestUrl` | store-frontend/lib/api.ts:32-35 | the request URL starts with base ++ "/api" ++ path; with an empty query it is exactly that; otherwise `?` follows and then exactly the query |
| `Api.RequestUrlQueryInjective` | store-frontend/lib/api.ts:33-35 | two requests for one path give the same URL only for the same query string |
| `Api.ProductsRequestUrl` | store-frontend/app/api/create-payment-intent/route.ts:21 | the catalog request of the payment route goes to base ++ "/api/products" with no `?` |
| `Cart.Count` | store-frontend/context/CartContext.tsx:78 | `cartCount` is 0 for an empty cart and, with quantities of at least 1, at least the number of lines |
| `Cart.Total` | store-frontend/context/CartContext.tsx:79 | `cartTotal` is 0 for an empty cart and not negative when prices and quantities are not |
| `Cart.IncrementLines` | store-frontend/context/CartContext.tsx:51-55 | same length; every line keeps its product; lines for the id gain exactly one unit and the others keep their quantity |
| `Cart.Added` | store-frontend/context/CartContext.tsx:47-58 | afterwards the product is in the cart; if it was there, length and snapshots are kept and only its line gains one unit; if not, the old lines are kept in order and `{product, 1}` is appended at the end |
| `Cart.Removed` | store-frontend/context/CartContext.tsx:61-63 | every kept line comes from the cart and is for another product; every line for another product is kept; no line for the id remains; the length drops by the number of lines for the id; an absent id changes nothing |
| `Cart.SetQuantity` | store-frontend/context/CartContext.tsx:67-71 | same length and products; lines for the id hold the new quantity and the others keep theirs |
| `Cart.QuantityUpdated` | store-frontend/context/CartContext.tsx:65-72 | a quantity below 1 leaves the cart unchanged; an absent id leaves it unchanged; otherwise only the line for the id takes the new quantity and length, order and other lines are kept |
| `Cart.CountAppend` | store-frontend/context/CartContext.tsx:78 | the count of two concatenated line lists is the sum of their counts |
| `Cart.TotalAppend` | store-frontend/context/CartContext.tsx:79 | the total of two concatenated line lists is the sum of their totals |
| `Cart.HasLineIffLines` | store-frontend/context/CartContext.tsx:49 | `find` succeeds exactly when at least one line has the id |
| `Cart.UniqueAtMostOneLine` | store-frontend/context/CartContext.tsx:49-56 | in a cart with unique ids a product occupies at most one line |
| `Cart.CountAfterIncrement` | store-frontend/context/CartContext.tsx:51-55 | incrementing the lines for an id raises the count by the number of such lines |
| `Cart.AddedCount` | store-frontend/context/CartContext.tsx:47-58 | in a cart with unique ids, every `addToCart` raises `cartCount` by exactly 1 |
| `Cart.AddedWellFormed` | store-frontend/context/CartContext.tsx:47-58 | `addToCart` keeps ids unique and quantities at least 1 |
| `Cart.AddedNewTotal` | store-frontend/context/CartContext.tsx:57 | adding a product not yet in the cart adds its price to `cartTotal` |
| `Cart.RemovedAppend` | store-frontend/context/CartContext.tsx:62 | removal distributes over concatenation, so the kept lines stay in their original order |
| `Cart.RemovedSingle` | store-frontend/context/CartContext.tsx:62 | a single line is kept exactly when its product id differs from the removed id |
| `Cart.RemovedIdempotent` | store-frontend/context/CartContext.tsx:62 | removing an id twice is the same as removing it once |
| `Cart.RemovedKeepsAbsent` | store-frontend/context/CartContext.tsx:62 | removal never brings in a product that was not in the cart |
| `Cart.UniqueTail` | store-frontend/context/CartContext.tsx:62 | helper of `RemovedUnique` about the uniqueness invariant: the lines after the first of a cart with unique ids have unique ids and do not hold the first line's product |
| `Cart.UniqueCons` | store-frontend/context/CartContext.tsx:62 | helper of `RemovedUnique` about the uniqueness invariant: a line for a new product in front of a cart with unique ids keeps the ids unique |
| `Cart.RemovedUnique` | store-frontend/context/CartContext.tsx:62 | `removeFromCart` keeps ids unique |
| `Cart.RemovedWellFormed` | store-frontend/context/CartContext.tsx:62 | `removeFromCart` keeps ids unique and quantities at least 1 |
| `Cart.RemovedCount` | store-frontend/context/CartContext.tsx:61-63 | removing an id lowers `cartCount` by the quantity held for that id |
| `Cart.QuantityForAfterSet` | store-frontend/context/CartContext.tsx:67-71 | after setting the quantity for an id, its lines hold that quantity each: the new quantity times the number of its lines |
| `Cart.CountAfterSet` | store-frontend/context/CartContext.tsx:67-71 | setting the quantity for an id changes `cartCount` by what its lines now hold minus what they held |
| `Cart.CountAfterSetQuantity` | store-frontend/context/CartContext.tsx:67-71 | setting the quantity for an id replaces the quantity held for it by the new quantity on each of its lines |
| `Cart.UpdatedCount` | store-frontend/context/CartContext.tsx:65-72 | in a cart with unique ids, updating a present line to q >= 1 changes `cartCount` by q minus the old quantity |
| `Cart.UpdatedWellFormed` | store-frontend/context/CartContext.tsx:65-72 | `updateQuantity` keeps ids unique and quantities at least 1 |
| `Cart.LocalStorage.GetItem` | store-frontend/context/CartContext.tsx:29 | the stored value when the key is present, null otherwise |
| `Cart.LocalStorage.SetItem` | store-frontend/context/CartContext.tsx:43 | that one slot takes the value and every other slot is unchanged |
| `Cart.CartProvider.constructor` | store-frontend/context/CartContext.tsx:24-25 | the provider starts with no lines and not loaded |
| `Cart.CartProvider.SaveEffect` | store-frontend/context/CartContext.tsx:41-45 | the "cart" slot is rewritten with the serialized lines when loaded; storage is untouched before the load |
| `Cart.CartProvider.LoadEffect` | store-frontend/context/CartContext.tsx:28-38 | a stored cart becomes the lines; a missing, empty or unparsable slot leaves the lines as they were; the flag is set either way and the lines are then written back |
| `Cart.CartProvider.AddToCart` | store-frontend/context/CartContext.tsx:47-59 | the lines become `Added(old lines, product)`; storage is written only if loaded; well-formedness is kept and the count rises by 1 |
| `Cart.CartProvider.RemoveFromCart` | store-frontend/context/CartContext.tsx:61-63 | the lines become `Removed(old lines, id)`; storage is written only if loaded; well-formedness is kept and the count drops by the removed quantity |
| `Cart.CartProvider.UpdateQuantity` | store-frontend/context/CartContext.tsx:65-72 | a quantity below 1 changes neither the provider nor the storage; otherwise the lines become `QuantityUpdated(...)` and storage is written only if loaded; well-formedness is kept |
| `Cart.CartProvider.ClearCart` | store-frontend/context/CartContext.tsx:74-76 | the lines become empty, with count and total 0; storage is written only if loaded |
| `Cart.Remount` | store-frontend/context/CartContext.tsx:28-45 | a provider mounted on the store of a loaded provider loads back exactly the lines the first one saved, and its load leaves the stored slots unchanged |
| `Payment.FindProduct` | store-frontend/app/api/create-payment-intent/route.ts:28 | none exactly when no catalog product has the id; otherwise a catalog product with that id that no earlier product's id matches |
| `Payment.Contribution` | store-frontend/app/api/create-payment-intent/route.ts:28-33 | an item whose id no catalog product has adds 0; a non-zero contribution is a catalog price for the item's id times its quantity; non-negative inputs give a non-negative contribution |
| `Payment.Subtotal` | store-frontend/app/api/create-payment-intent/route.ts:24-34 | the running `total` is 0 for no items and not negative when quantities and prices are not |
| `Payment.ComputeAmount` | store-frontend/app/api/create-payment-intent/route.ts:15-36 | a bad request exactly when items are missing or empty, with "No items in cart"; otherwise the amount is `Subtotal + 500`; exactly 500 for an empty catalog; at least 500 when quantities and prices are non-negative |
| `Payment.SubtotalAppend` | store-frontend/app/api/create-payment-intent/route.ts:27-34 | the total of two item lists in sequence is the sum of their totals |
| `Payment.MissingItemIgnored` | store-frontend/app/api/create-payment-intent/route.ts:28-29 | an item whose id is not in the catalog adds 0 wherever it stands and does not change what the other items add |
| `Payment.SubtotalEmptyCatalog` | store-frontend/app/api/create-payment-intent/route.ts:21-34 | against an empty catalog every item list totals 0 |
| `Payment.CatalogChargeStep` | store-frontend/app/api/create-payment-intent/route.ts:27-34 | one more item adds its catalog price times its quantity to the per-product sum, when catalog ids are unique |
| `Payment.CatalogChargeEmpty` | store-frontend/app/api/create-payment-intent/route.ts:24-34 | base case of the per-product sum used by `SubtotalByCatalog`: with no items the sum is 0, as `total` starts at 0 |
| `Payment.SubtotalByCatalog` | store-frontend/app/api/create-payment-intent/route.ts:27-34 | with unique catalog ids, the items total equals the sum over catalog products of price times quantity ordered |
| `Payment.PaymentGateway.CreatePaymentIntent` | store-frontend/app/api/create-payment-intent/route.ts:38-44 | exactly one intent is logged, for the given amount, and the gateway's reply is returned |
| `Payment.CatalogOf` | store-frontend/lib/api.ts:40-42 | a failed catalog fetch gives the empty catalog (the `{data: []}` fallback); a successful one gives only fetched products |
| `Payment.Post` | store-frontend/app/api/create-payment-intent/route.ts:11-57 | an unreadable body gives 500 and a missing or empty item list gives 400 "No items in cart", both without opening an intent; otherwise exactly one intent is opened for `Subtotal + 500` (500 when the catalog fetch failed), answered with 200 and the client secret or with 500 and the gateway's message |

## Left out

- Post, ComputeAmount: the model assumes the request's `items` is a list of
  `{id, quantity}` objects with integer fields; the route itself checks only
  `!items || items.length === 0`. Not captured: a fractional `quantity`
  makes the total non-integer and that amount goes to the gateway, whose
  error then becomes a 500; an `id` sent as a string never matches a
  catalog id and is charged 0; a `null` entry, or a truthy `items` that
  cannot be iterated, throws inside the loop and becomes a 500.
- Floating-point prices: `Math.round(price * 100)` and the float `cartTotal`
  are not modelled. Prices are integer cents (`Types.Product.price`) and
  `Payment.Cents` is the identity. Rounding behaviour is not stated.
- Product fields other than `id` and `price` (title, slug, image, category,
  currency) are carried only for display and are not modelled.
- Number widths: JavaScript numbers are doubles; the model uses unbounded
  integers, so behaviour past 2^53 is not captured.
- JSON serialization and parsing, and the browser's local storage: a stored
  slot is an abstract `Blob`, either a serialized list of lines or other
  text. A text that parses to something other than a list of lines is not
  distinguished from an unparsable one. The model writes the round-trip as
  "saved lines load back as the same lines".
- The query-string serializer (`qs.stringify`), the HTTP client (`axios`),
  the authorization header and the response envelope of `fetchAPI`: the
  query string and the fetched catalog are inputs.
- The payment gateway's own behaviour (currency `usd`, automatic payment
  methods, client secret generation): the gateway is an object whose reply is
  a fixed function of the amount.
- React effect scheduling, batched state updates, the `useCart` guard
  outside a provider, and several tabs writing the same slot: not modelled.
- The checkout page's status messages and clearing the cart after a
  successful payment, the cart page's decrement button, the other pages and
  components, and the seed scripts: these are user interface and content
  upload, not part of this model.
