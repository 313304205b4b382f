# Cart, order and authentication logic of a small shop backend

This project models the core of a Node/Express shop backend in Dafny. It covers:

- **Carts and orders**, from `routes/orders.js` and `models/Order.js`. A cart is an Order document with status `"Cart"`. It holds an ordered list of line items, each with a product id, a name/image/price snapshot and a quantity, plus a stored `totalAmount`.
  - Get-cart finds the user's cart, or creates an empty one with total 0.
  - Add bumps the first line item for the product, or appends a snapshot of the catalog's name and price.
  - Update overwrites one item's quantity, with no lower bound.
  - Remove filters out every item for the product.
  - Clear empties the cart.
  - Add, update and remove recompute `totalAmount` as the sum of quantity × price. Clear sets it to 0.
  - Place-order saves a new `Pending` order built from what the client sends. It leaves the cart alone and does not check the client's total.
- **Authentication**, from `routes/auth.js`:
  - Registration runs its checks in a fixed order: missing fields, then a taken username, then a taken email. Only then does it insert one user holding the bcrypt hash.
  - Login gives the same "Invalid credentials" answer for an unknown email and for a wrong password. On success it signs `{userId, username}`.
  - The `verifyToken` gate cuts the first `"Bearer "` out of the Authorization header. It answers 401 when no token is left and 400 when verification fails. Otherwise it attaches the decoded payload to the request and calls the next handler.

The model is organised as follows:

| module (file) | contents |
|---|---|
| `Common` (common.dfy) | `Option`, `Result`, the `UserId` type, and `FirstMatch`, the first-match lookup behind both `findOne` and `findIndex` |
| `OrderModel` (order_model.dfy) | the Order, line-item and shipping-info types, the status enumeration and default, and `SchemaValid` (what schema validation accepts) |
| `CartItems` (cart_items.dfy) | pure functions on item sequences: the `reduce` total, `findIndex`, the items after add and after update, the `filter` of remove, and the `map` of place-order, with lemmas about totals, order and distinctness |
| `Orders` (orders.dfy) | the `Cart` class (the document changed in place) and the `OrderStore` class (the order collection) with one method per route, plus the collection invariants |
| `Auth` (auth.dfy) | the `UserStore` class with `Register`, the `Login` function, header extraction, and the `Request` class with the `VerifyToken` gate |

Modelling choices:

- **The document store** is a sequence of documents in collection order. `findOne` returns the first match. `save` overwrites a loaded document in place and appends a new one.
- **The product catalog** is a `map` passed to the add handler.
- **bcrypt and jsonwebtoken** are the function values of a `Crypto` record. Lemmas that need them assume only three laws (`Sound`): a password matches its own hash, a token verifies to the payload it was signed from, and a signed token is never empty.
- **Inputs supplied from outside.** The bcrypt salt and the id the store gives a new user are parameters. So is the caller's user id, which is the verified token's `userId`.
- **Numbers.** Prices and quantities are integers, for example cents.
- **Store invariants.** `OrderStore.Valid` says three things: every cart's total equals its recomputed sum, no cart holds two items for the same product, and no user has two carts. Every handler preserves all three. `UserStore.Valid` says ids, usernames and emails are unique, and registration preserves it, given the fresh id the store assigns. These hold only because requests run one at a time, as modelled here.

Two inconsistencies in the code are kept on purpose:

- **`"Cart"` is not a valid status.** Every cart is saved with status `"Cart"`, but that value is not in the schema's status enumeration. The model keeps schema validity as a separate predicate. `OrderModel.CartStatusFailsSchema` shows that no cart document passes it. The store writes in this model do not run validation.
- **Add always fails as written.** The add handler calls `Product.findById`, but `Product` is never imported. See Findings.

## Model

| member | source | states |
|---|---|---|
| `Common.FirstMatch` | routes/orders.js:48-50 | the index returned is the first element satisfying the filter; None exactly when no element does (the -1 of `findIndex`, the null of `findOne`) |
| `Common.FirstMatchAppend` | routes/orders.js:14-21 | appending a document never changes an earlier match; the new one is found only when nothing earlier matched |
| `OrderModel.DefaultStatusIsPending` | models/Order.js:26-30 | a document built without a status has status Pending and passes validation exactly when every quantity is at least 1 |
| `OrderModel.CartStatusFailsSchema` | models/Order.js:29 | "Cart" is outside the status enumeration, so no document with status "Cart" passes validation |
| `OrderModel.NonPositiveQuantityFailsSchema` | models/Order.js:14 | a line item with quantity below 1 makes the document fail validation (`min: 1`) |
| `OrderModel.EffectiveStatus` | models/Order.js:26-28 | definition: the stored status, or the schema default Pending when none was given; its consequences are in `DefaultStatusIsPending` |
| `OrderModel.ItemValid` | models/Order.js:14 | definition: a line item validates when its quantity is at least 1 (`min: 1`) |
| `OrderModel.SchemaValid` | models/Order.js:14-29 | definition: every item validates and the effective status is in the enumeration; its consequences are in `DefaultStatusIsPending`, `CartStatusFailsSchema`, `NonPositiveQuantityFailsSchema` and `Orders.PlacedOrderSchemaValid` |
| `CartItems.Total` | routes/orders.js:62-65 | definition: the left fold of quantity × price from 0; its properties are in `TotalConcat`, `TotalSingleton`, `TotalQuantityChange` and `TotalWithout` |
| `CartItems.TotalConcat` | routes/orders.js:62-65 | the reduce total of a concatenation is the sum of the two totals |
| `CartItems.TotalQuantityChange` | routes/orders.js:92-96 | changing one item's quantity moves the total by the change times that item's snapshot price |
| `CartItems.TotalSingleton` | routes/orders.js:62-65 | the total of one item is its quantity times its price |
| `CartItems.FindItem` | routes/orders.js:48-50 | result is the first item with the product id; None exactly when no item has it |
| `CartItems.Snapshot` | routes/orders.js:54-59 | definition: the appended entry carries the product id, the catalog's name and price, the quantity sent and no image; `AddedItems` states where it lands |
| `CartItems.AddedItems` | routes/orders.js:48-60 | existing product: same length, only the first matching item's quantity rises by the amount, and the total rises by amount × that item's stored price; new product: exactly one snapshot item (catalog name and price) appended after the unchanged old items, and the total rises by amount × catalog price |
| `CartItems.QuantitySet` | routes/orders.js:92-96 | only the chosen item's quantity changes, to any value with no lower bound; the total moves by the change times its price |
| `CartItems.Without` | routes/orders.js:115-117 | no remaining item has the product id, and the result is never longer than the input |
| `CartItems.WithoutAbsent` | routes/orders.js:115-117 | removing a product the cart does not hold leaves the items exactly as they were (a no-op, not an error) |
| `CartItems.WithoutCons` | routes/orders.js:115-117 | one filter step: the first item is kept unless it has the product id, and the rest are filtered likewise |
| `CartItems.AddTwiceIsAddSum` | routes/orders.js:48-60 | two adds of the same product equal one add of the summed quantity |
| `CartItems.FoundAgainAfterAdd` | routes/orders.js:48-52 | after add, the lookup for the same product finds the entry add touched or appended |
| `CartItems.WithoutMembership` | routes/orders.js:115-117 | an item survives removal exactly when it was in the cart under another product id |
| `CartItems.WithoutConcat` | routes/orders.js:115-117 | the filter keeps order: it distributes over concatenation |
| `CartItems.WithoutIdempotent` | routes/orders.js:115-121 | removing the same product twice equals removing it once |
| `CartItems.TotalWithout` | routes/orders.js:115-121 | the total after removal plus the subtotal of the removed items equals the total before |
| `CartItems.AddedKeepsDistinct` | routes/orders.js:48-60 | add never creates a second line item for a product |
| `CartItems.QuantitySetKeepsDistinct` | routes/orders.js:92 | update keeps product ids distinct |
| `CartItems.WithoutKeepsDistinct` | routes/orders.js:115-117 | remove keeps product ids distinct |
| `CartItems.WithoutDistinct` | routes/orders.js:115-117 | with distinct product ids, remove drops exactly the item `findIndex` finds and keeps the rest in order |
| `CartItems.WithoutSingleMatch` | routes/orders.js:115-117 | removing from a list where only one item matches leaves the items before and after it |
| `CartItems.ToLineItem` | routes/orders.js:152-158 | definition: one client item mapped field by field; `ToLineItems` states the mapping |
| `CartItems.ToLineItems` | routes/orders.js:152-158 | one line item per client item, in order; `_id` becomes product, `imageUrl` image, and name, quantity and price are copied unchecked |
| `CartItems.ToLineItemsConcat` | routes/orders.js:152-158 | the place-order map distributes over concatenation |
| `Orders.FindCart` | routes/orders.js:10-13 | the user's first document with status "Cart"; None exactly when the user has none |
| `Orders.NewCart` | routes/orders.js:15-20 | a fresh cart belongs to the user, has no items, total 0 (its consistent total) and status "Cart" |
| `Orders.CurrentCart` | routes/orders.js:38-46 | always the user's cart with status "Cart": the stored one when the lookup finds it, else an empty one with total 0; it has a consistent total and distinct products whenever the collection keeps those invariants |
| `Orders.Stored` | routes/orders.js:21 | save overwrites a loaded document in place and leaves the others; a new document is appended after all existing ones |
| `Orders.SaveCartKeepsInvariants` | routes/orders.js:62-67 | saving the user's cart with a recomputed total and distinct products keeps every cart's total consistent, every cart's products distinct, and one cart per user |
| `Orders.AppendNonCartKeepsInvariants` | routes/orders.js:150-164 | saving a non-cart document keeps all three collection invariants and does not change which cart any user's lookup finds |
| `Orders.CreatedCartIsFound` | routes/orders.js:14-22 | after get-cart creates a cart for a user without one, the lookup finds that new cart |
| `Orders.PlacedOrder` | routes/orders.js:150-162 | the placed document has the caller's user, shipping info and total as sent, status Pending (a valid status), and one item per client item with id, quantity and price carried over |
| `Orders.PlacedTotalIsUnchecked` | routes/orders.js:160 | a placed order's total can disagree with its own items: the client's figure is stored unchecked |
| `Orders.PlacedOrderSchemaValid` | routes/orders.js:150-164 | a placed order passes schema validation exactly when every quantity the client sent is at least 1 |
| `Orders.ClearTwiceSameState` | routes/orders.js:133-140 | clearing an already cleared cart finds the same cart and stores the identical document |
| `Orders.AddTwiceExample` | routes/orders.js:48-65 | adding 2 of a product priced 5 to an empty cart and then 3 more gives one item of quantity 5 and total 25 |
| `Orders.ErrorMessage` | routes/orders.js:35-89 | definition: the exact 404 messages "Product not found", "Cart not found" and "Item not found in cart" |
| `Orders.StatusCode` | routes/orders.js:23-171 | definition: 200 for a cart body or a clear, 201 for a placed order, 404 for a missing cart, product or item, 500 for the catch-all |
| `Orders.ResponseMessage` | routes/orders.js:141-168 | definition: "Cart cleared successfully", "Order placed successfully", the 404 message, or the 500 message; a cart body carries none |
| `Orders.Cart.Load` | routes/orders.js:38 | the loaded document object holds exactly the stored document |
| `Orders.Cart.AddProduct` | routes/orders.js:48-65 | the items become those of `AddedItems`, and the total is their recomputed sum |
| `Orders.Cart.SetQuantity` | routes/orders.js:92-96 | the items become those of `QuantitySet`, and the total is their recomputed sum |
| `Orders.Cart.RemoveProduct` | routes/orders.js:115-121 | the items become those of `Without`, and the total is their recomputed sum |
| `Orders.Cart.Clear` | routes/orders.js:138-139 | items empty and total 0, which is the sum of no items |
| `Orders.OrderStore.Save` | routes/orders.js:67 | the collection becomes `Stored` of the old collection |
| `Orders.OrderStore.Valid` | routes/orders.js:10-67 | definition: every cart's total is its recomputed sum, every cart's products are distinct, and no user has two carts; every handler's `old(Valid()) ==> Valid()` keeps it |
| `Orders.OrderStore.GetCart` | routes/orders.js:8-27 | returns the user's existing cart and changes nothing; otherwise it appends a new empty cart and returns it; afterwards the lookup finds the returned cart; the invariants are kept |
| `Orders.OrderStore.AddToCart` | routes/orders.js:30-72 | unknown product: 404 "Product not found" and the collection is unchanged; otherwise the user's cart (or a new one) is saved with `AddedItems` and the recomputed total, and returned |
| `Orders.OrderStore.AddToCartAsWritten` | routes/orders.js:33 | as written, every add answers 500 "Failed to add item to cart", because `Product` is undefined |
| `Orders.OrderStore.UpdateCartItem` | routes/orders.js:75-103 | no cart: 404 "Cart not found"; product not in cart: 404 "Item not found in cart"; both leave the collection unchanged; otherwise only the first matching item's quantity is set, with the total recomputed, and the cart is saved in place |
| `Orders.OrderStore.RemoveCartItem` | routes/orders.js:106-128 | no cart: 404 and the collection is unchanged; otherwise the cart is saved in place with every item of that product filtered out and the total recomputed; an absent product is not an error |
| `Orders.OrderStore.ClearCart` | routes/orders.js:131-145 | no cart: 404 and the collection is unchanged; otherwise the cart is saved in place with no items and total 0, and the answer is "Cart cleared successfully" |
| `Orders.OrderStore.PlaceOrder` | routes/orders.js:146-173 | appends exactly the `PlacedOrder` document and answers 201 with it; no user's cart lookup changes; the invariants are kept |
| `Auth.FindByUsername` | routes/auth.js:34 | some user has that username exactly when the lookup succeeds |
| `Auth.FindByEmail` | routes/auth.js:40 | the first user with that email; None exactly when no user has it |
| `Auth.Login` | routes/auth.js:55-82 | every failure is "Invalid credentials"; an unknown email fails; for a known email, success exactly when the password matches the stored hash; a success signs exactly `{userId, username}` and returns id, email and username only |
| `Auth.LoginTokenVerifies` | routes/auth.js:68-72 | under the crypto laws, the login token verifies to the user's id and username |
| `Auth.LoginFailuresIndistinguishable` | routes/auth.js:58-66 | an unknown email and a wrong password give the identical failure |
| `Auth.LoginAfterRegister` | routes/auth.js:45-77 | a user just inserted by registration logs in with their password and is named in the answer |
| `Auth.ErrorStatus` | routes/auth.js:12-65 | definition: 401 for a missing token, 400 for every other refusal |
| `Auth.ErrorMessage` | routes/auth.js:12-65 | definition: the exact error strings of the register, login and gate refusals |
| `Auth.Falsy` | routes/auth.js:29 | definition: a field counts as missing when it is absent or the empty string |
| `Auth.UserStore.Valid` | routes/auth.js:34-47 | definition: ids, usernames and emails are each unique in the table; `Register` keeps it |
| `Auth.UserStore.Register` | routes/auth.js:24-53 | missing (absent or empty) fields fail first; then a taken username; then a taken email; each failure leaves the table unchanged; otherwise exactly one user is appended, under the fresh id the store assigns and holding `hash(password, salt)`; uniqueness of ids, usernames and emails is kept |
| `Auth.RegisterReply` | routes/auth.js:29-48 | status 201 ("User registered successfully") exactly when a user was inserted; every refusal carries a 4xx status (below 500) and that refusal's exact message |
| `Auth.RemoveFirst` | routes/auth.js:10 | the result is the input, or the input shortened by exactly the pattern's length |
| `Auth.RemoveFirstAt` | routes/auth.js:10 | the first occurrence of the pattern, and only that one, is cut out |
| `Auth.RemoveFirstAbsent` | routes/auth.js:10 | a string without the pattern is returned unchanged |
| `Auth.ExtractToken` | routes/auth.js:10 | no header gives no token; otherwise the token is the header, or the header shortened by exactly the length of "Bearer "; `BearerHeaderYieldsToken` and `HeaderWithoutPrefixIsToken` state which |
| `Auth.BearerHeaderYieldsToken` | routes/auth.js:10 | the header "Bearer " + t yields exactly the token t |
| `Auth.HeaderWithoutPrefixIsToken` | routes/auth.js:10 | a header that never contains "Bearer " is taken whole as the token |
| `Auth.Request.constructor` | routes/auth.js:9 | a request starts with its header, no user attached and the next handler not called |
| `Auth.Gate` | routes/auth.js:10-20 | no header or an empty token: refused with the no-token error (401), before verification; a token that does not verify: the invalid-token error (400); otherwise the payload the token verifies to |
| `Auth.VerifyToken` | routes/auth.js:9-22 | follows `Gate`: on a refusal it answers that error with req.user and next untouched; otherwise req.user is the decoded payload and next is called |
| `Auth.LoginTokenPassesGate` | routes/auth.js:10-18 | under the crypto laws, a login token sent as "Bearer " + token is non-empty after extraction and verifies, so the gate passes it with exactly the signed `{userId, username}` |

## Findings

| source | as written | input that shows it | evidently intended | confidence | as-written member | corrected member |
|---|---|---|---|---|---|---|
| routes/orders.js:33 | `Product.findById` refers to `Product`, which lines 1-3 never import. The reference throws, and the catch-all answers 500 | any POST /cart/add, for example productId "p1" with quantity 1 | look the product up in the catalog: 404 when it is missing, otherwise add it to the cart | high (not executed) | `Orders.OrderStore.AddToCartAsWritten` | `Orders.OrderStore.AddToCart` |

## Left out

- server.js: process bootstrap, the database connection, the CORS allow-list and route mounting. These are I/O and configuration.
- Express plumbing: HTTP transport and the catch-all 500 answers on store failures. Answers are a result datatype with status and message functions. The one 500 kept is the as-written add above.
- The `middleware/auth` module used by the order routes is not part of this model. The handlers take the verified user id, as `verifyToken` would attach it.
- `populate("items.product")` in get-cart is not modelled. The cart is returned with product ids, not catalog records.
- Schema validation on save is not run by the model's store. `SchemaValid` is kept as its own predicate. As written, Mongoose would refuse every cart save and every update to a quantity below 1. It would also refuse a placed order with a quantity below 1 (`min: 1`), and place-order would then answer 500 "Failed to place order" and store nothing. The model's `PlaceOrder` appends such an order and answers 201 instead. `Orders.PlacedOrderSchemaValid` states exactly which placed orders validation would accept.
- Comparing ObjectIds through `toString()` is modelled as equality of string ids.
- bcrypt and jsonwebtoken are function values with three stated laws: a password matches its own hash, a signed token verifies to its payload, and a signed token is never empty. Hashing, salting, HMAC signing, the one-hour expiry and the `iat`/`exp` claims are not modelled.
- Concurrency is not modelled. Two registrations, or two first cart accesses, can interleave between a check and a write. The uniqueness invariants proved here hold only for requests run one at a time.
- JavaScript numbers are not modelled. Prices, quantities and totals are unbounded integers; floating point, `NaN` from a missing quantity and string-to-number coercion are out of scope.
- Required schema fields are modelled by the types, so a document lacking them cannot be represented. This covers an item's product, quantity and price, and an order's user and totalAmount. The same holds for client items sent to place-order and for login's email and password. Missing register fields are modelled (absent or empty string); other falsy values such as `0` or `false` are not.
- The `createdAt` default is wall-clock time.
- The `/protected`, `/status` and `/health` routes only echo `req.user` or a constant.
- Auth.UserStore.Register: states that the stored password is `hash(password, salt)`. That it differs from the plaintext would need a property of bcrypt the model does not assume.
- Orders.OrderStore.GetCart: states the returned document, not its populated form.
