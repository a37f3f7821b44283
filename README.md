# E-commerce cart and payment backend: a Dafny model

This project models the logic behind the routes of a small Express/Sequelize
backend (`ecommerce-cart-backend/app.js`). It covers:

- the cart-total helper;
- the four cart routes (add, fetch, update, remove);
- order creation when a payment is initiated;
- reconciliation of an order's payment status by a signed webhook.

The store is seen as three tables:

- the product catalog, which no handler writes; it is a map from product id to product;
- the cart lines, a sequence in store order;
- the orders, a sequence in store order.

Money is kept as integers in minor units (paise), so 10.00 is `1000`.

Files and modules:

- `tables.dfy`, module `Tables`: the row types, the queries the handlers issue
  (`findAll` by user, `findOne` by (user, product), `findOne` by payment id),
  the row edits (set a quantity, remove a row, set a status) and lemmas about them.
- `pricing.dfy`, module `Pricing`: the reference definitions of what a user's
  cart costs (`CartTotal`, built from `Sum`) and what the cart view shows
  (`CartView`, built from `Entries`), and how adds, updates and removals change them.
- `backend.dfy`, module `Backend`: class `Store`, whose fields are the catalog
  (a `const`) and the two mutable tables. Its methods are the route handlers.
  Each handler returns the HTTP status code the route sends, plus the values
  its JSON body carries. `CalculateCartTotal` and `FetchCart` keep the source's
  loops and are proved against `Sum` and `Entries`. `Purchase` is the whole
  purchase scenario written as one method.

Three behaviours of the code are easy to miss; the model follows the code each time:

- A cart line whose product does not exist makes `product.price` (or
  `product.id`) fail on a null lookup. The route then answers 400 with the
  runtime error message. There is no separate "product not found" error, so
  the model's total and view give `None` and the handlers answer 400.
- Quantities and prices are not checked to be positive. The model's
  quantities and prices are any integers.
- An order is created only when the provider's reply has status exactly 200.
  Every other outcome answers 400 and stores nothing. That includes a reply
  the HTTP client rejects and a host that cannot be reached.

## Model

| member | source | states |
|---|---|---|
| `Tables.UserLines` | ecommerce-cart-backend/app.js:84 | the user's lines are no more than the cart's rows, and every one of them belongs to that user |
| `Tables.UserLinesMembers` | ecommerce-cart-backend/app.js:84 | a row is among a user's lines exactly when it is in the cart with that userId (both directions) |
| `Tables.FirstMatch` | ecommerce-cart-backend/app.js:131 | gives the first row matching (userId, productId), with no matching row before it, and gives nothing exactly when no row matches |
| `Tables.FirstOrder` | ecommerce-cart-backend/app.js:207 | gives the first order whose paymentId is the notified one, with none before it, and gives nothing exactly when no order has that paymentId |
| `Tables.ReconciledStatus` | ecommerce-cart-backend/app.js:209 | never Pending; SUCCESS exactly when the notified status is the string "SUCCESS", FAILED for any other value or none |
| `Tables.AddAppendsToOwnerOnly` | ecommerce-cart-backend/app.js:99 | appending a row adds it at the end of its owner's lines and leaves every other user's lines as they were |
| `Tables.SetQuantityKeepsOtherUsers` | ecommerce-cart-backend/app.js:133-134 | changing one row's quantity leaves the lines of every other user unchanged |
| `Tables.RemoveAtKeepsOtherUsers` | ecommerce-cart-backend/app.js:150 | destroying one row leaves the lines of every other user unchanged |
| `Tables.RemoveAtDropsOneOwnerLine` | ecommerce-cart-backend/app.js:150 | destroying one row takes exactly that line out of its owner's cart; the owner's lines before and after it stay, in the same order |
| `Tables.RemoveAt` | ecommerce-cart-backend/app.js:150 | the table after a row is destroyed: one row shorter, the earlier rows in place, the later rows shifted down by one, and the same rows as before less the removed one |
| `Tables.SetQuantity` | ecommerce-cart-backend/app.js:133-134 | the table after a quantity is saved: same length, the row keeps its userId and productId and gets the new quantity, and every other row is unchanged |
| `Tables.SetStatus` | ecommerce-cart-backend/app.js:209-210 | the table after a status is saved: same length, the order keeps its userId, totalAmount and paymentId and gets the new status, and every other order is unchanged |
| `Tables.RedeliveryIsNoOp` | ecommerce-cart-backend/app.js:207-210 | reconciliation keeps the paymentId, so delivering the same notification again finds the same order and leaves the orders as the first delivery left them |
| `Tables.TerminalStatusCanBeOverwritten` | ecommerce-cart-backend/app.js:207-210 | there is no terminal-state guard: for any order table, whatever status the first matching order has (SUCCESS included), a notification with any status other than "SUCCESS" makes it FAILED |
| `Pricing.Sum` | ecommerce-cart-backend/app.js:85-89 | defines the running total: 0 for no lines, and each line adds its product's price times its quantity (no ensures of its own; `SumAppend` and `TotalSumsOwnRows` state its properties) |
| `Pricing.CartTotal` | ecommerce-cart-backend/app.js:84-90 | defines the result of the cart-total helper: `Sum` over the user's lines when every one names an existing product, otherwise failure (`TotalSumsOwnRows`, `NoLinesTotalsZero` and `MissingProductFailsTotal` state its properties) |
| `Pricing.CartView` | ecommerce-cart-backend/app.js:110-119 | defines the body of a fetch: `Entries` of the user's lines when every one names an existing product, otherwise failure (`MissingProductFailsTotal` and `AddThenFetch` state its properties) |
| `Pricing.Entries` | ecommerce-cart-backend/app.js:111-119 | the view has one entry per line in the lines' order, each with the product's id, name and price and the line's quantity |
| `Pricing.EntriesAppend` | ecommerce-cart-backend/app.js:111-119 | the view of two runs of lines is the first run's view followed by the second's |
| `Pricing.SumAppend` | ecommerce-cart-backend/app.js:85-89 | the total of two runs of lines is the sum of their totals |
| `Pricing.NoLinesTotalsZero` | ecommerce-cart-backend/app.js:84-90 | a user with no lines in the cart has total exactly 0 and an empty view |
| `Pricing.TotalSumsOwnRows` | ecommerce-cart-backend/app.js:84-90 | when all the user's products exist, the total is the sum of price times quantity over that user's rows only; other users' rows add nothing |
| `Pricing.MissingProductFailsTotal` | ecommerce-cart-backend/app.js:87-88 | one line of the user whose product does not exist makes both the total and the view fail; it is never counted as 0 |
| `Pricing.ViewAddsUpToTotal` | ecommerce-cart-backend/app.js:110-119 | the entries of the cart view add up (price times quantity) to the cart total |
| `Pricing.AddLeavesOtherTotals` | ecommerce-cart-backend/app.js:99 | adding a line leaves the total and the view of every other user unchanged |
| `Pricing.AddThenFetch` | ecommerce-cart-backend/app.js:99-121 | after adding a line for an existing product, fetching shows the earlier view followed by that line's productId, name, price and quantity |
| `Pricing.AddRaisesOwnTotal` | ecommerce-cart-backend/app.js:84-99 | adding a line for an existing product grows its owner's total by exactly that line's amount |
| `Pricing.SetQuantityLeavesOtherTotals` | ecommerce-cart-backend/app.js:131-134 | updating a line leaves the total and the view of every other user unchanged |
| `Pricing.SetQuantityMovesOwnTotal` | ecommerce-cart-backend/app.js:131-134 | updating a line moves its owner's total by the new amount minus the old amount of that line |
| `Pricing.RemoveLeavesOtherTotals` | ecommerce-cart-backend/app.js:148-150 | removing a line leaves the total and the view of every other user unchanged |
| `Pricing.RemoveLowersOwnTotal` | ecommerce-cart-backend/app.js:148-150 | removing a line lowers its owner's total by exactly that line's amount |
| `Backend.Store.constructor` | ecommerce-cart-backend/app.js:78-80 | the cart and order tables start empty, as after `sync({ force: true })`; the catalog is an input that the program itself never fills (see Left out) |
| `Backend.Store.CalculateCartTotal` | ecommerce-cart-backend/app.js:83-91 | the loop succeeds exactly when every line of the user names an existing product, and then returns the sum of price times quantity over the user's lines |
| `Backend.Store.AddToCart` | ecommerce-cart-backend/app.js:96-104 | with all three fields present: 201, exactly one new row with those fields appended, all earlier rows unchanged (duplicates allowed); otherwise 400 and nothing changes; orders never change |
| `Backend.Store.FetchCart` | ecommerce-cart-backend/app.js:107-125 | 200 exactly when all the user's products exist, with one entry per user line in store order; otherwise 400 with no entries |
| `Backend.Store.UpdateCart` | ecommerce-cart-backend/app.js:128-142 | with a matching row and a quantity: 200, only the first matching row gets the new quantity and every other row is unchanged; with no matching row: 404 and the cart is unchanged; a missing quantity: 400 and the cart is unchanged |
| `Backend.Store.RemoveFromCart` | ecommerce-cart-backend/app.js:145-158 | with a matching row: 200, exactly the first matching row is removed and the others keep their order; otherwise 404 and the cart is unchanged |
| `Backend.Store.InitiatePayment` | ecommerce-cart-backend/app.js:161-192 | for a given userId the amount requested is the cart total; 200 exactly when the userId is given, the total exists and the provider answers 200, and then exactly one Pending order with userId, total and the provider's payment id is appended; otherwise 400 and no order; a null userId requests 0 and always gives 400 with no order, since the order create fails its not-null check; the cart never changes |
| `Backend.Store.Webhook` | ecommerce-cart-backend/app.js:195-218 | a signature mismatch gives 400 with no order changed; a valid signature but no matching order gives 404 with no order changed; otherwise 200 and only the first matching order's status becomes SUCCESS or FAILED |
| `Backend.SampleCartTotal` | ecommerce-cart-backend/app.js:84-90 | two of a 10.00 product and one of a 5.50 product in user 1's cart total 25.50 |
| `Backend.Purchase` | ecommerce-cart-backend/app.js:161-218 | two adds (10.00 x 2, 5.50 x 1), an initiation with provider status 200 and a correctly signed SUCCESS notification leave one order for user 1 of 25.50 with status SUCCESS |

## Left out

- The Express app, body parsing, route wiring and `app.listen` are HTTP
  plumbing. Each route is a method, and a JSON body is reduced to the values it carries.
- The Sequelize model definitions and the `User` model are left out. No
  handler reads users. The tables are sequences of rows instead.
- Row ids, `createdAt` and `updatedAt` are not modelled. "First" means first
  in store (insertion) order.
- The catalog is an input of the model. The program as written never fills it:
  `sync({ force: true })` recreates the Product table empty in a private
  in-memory database, and no handler writes products. So every priced path,
  the purchase scenario included, assumes products put in from outside the program.
- Request validation is modelled only where a save runs the `allowNull: false`
  check: the fields of a cart create, the `userId` of an order create and the
  quantity of an update. A field that is missing or null is `None`; for the
  payment route's `userId`, `None` is a JSON `null`. A missing `userId` there
  would also reach the cart query's `where` clause as undefined (next line).
- An undefined value in a `where` clause is not modelled. The keys of update,
  remove and the webhook lookup are plain values.
- Values of the wrong type are not modelled either. An example is a
  quantity of 2.5 or "x". Sequelize does not check types by default, so such
  a value reaches the database and the route still answers 201 or 200.
- The provider call is an input `ProviderReply`: a reply status with an
  optional `payment_id`, or `Unreachable`. `Unreachable` stands only for a
  failure that the route turns into 400. The call has no timeout, so a
  provider that never answers leaves the request hanging; that is not modelled. The request payload's currency,
  contact details and headers are fixed constants and are not modelled.
  `InitiatePayment` returns the amount requested from the provider.
- The provider's response body is not modelled. On success the route
  returns it unchanged.
- HMAC-SHA256 over `JSON.stringify` of the payload is an input: the
  computed signature string. Only its comparison with the optional
  `x-webhook-signature` header is modelled. The comparison is not constant-time.
- The webhook's `payment_id` is a string. A notification without one is not modelled.
- Decimal (floating-point) prices and totals are integers in minor units.
  Floating-point rounding is therefore not modelled.
- The `Date.now()` order reference is non-deterministic, and no stored state keeps it.
- Concurrent requests and interleavings between them are not modelled. Each
  handler runs as one step on the store.
