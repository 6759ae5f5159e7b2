# Terra storefront backend — a Dafny model of its request handlers

Terra's backend is an Express server over a Postgres database, with Stripe as
its payment gateway. This project models what its handlers do to the database
tables:

- the cart routes: add a line, set a quantity, remove a line;
- the checkout route: snapshot the cart joined with the live catalog, write a
  pending order with the snapshot's total, write one order item per row,
  delete the user's whole cart, then ask the gateway for a card-payment
  session;
- the payment webhook, which marks an order paid when a verified
  `checkout.session.completed` event names it;
- the admin product routes (insert, update, delete) behind the bearer-token
  and admin guards.

The tables live in the fields of one class, `Server.Store`:

- `products`: a map from id to product row;
- `cart`: a map from (user id, product id) to quantity;
- `orders`: a map from id to order row;
- `orderItems`: a sequence in insertion order;
- two counters standing for the id sequences.

Each handler is a method on `Store`. Its `ensures` ties the new tables to a
pure function of the old ones (`CartTable.Add`, `CartTable.ClearUser`,
`OrdersTable.ApplyEvent`, …). Lemmas state properties of those functions.

Values that come from outside the model are method inputs:

- the verdict of token verification (`Option<Claims>`);
- the gateway's reply to the session request;
- the verdict of the webhook's signature check (`Option<Event>`);
- which database statement of a checkout throws (`Fault`).

The database fixes no row order for the cart join. `Store.Snapshot` therefore
visits the user's cart lines in an arbitrary order. `Pricing.SnapshotTotalDeterminate`
shows that the total does not depend on that order.

Prices are whole cents. The order total is the exact left-to-right sum of
quantity × price. A line item's `unit_amount` is the price in cents.

Modules:

- `Records`: the table rows and the messages exchanged with callers and the gateway.
- `OrderRef`: the order id as a decimal string through the session metadata, and reading it back.
- `Access`: the guards and the environment fallbacks.
- `CartTable`: the cart statements and the cart/catalog join.
- `Pricing`: the total, the order items and the line items.
- `OrdersTable`: what an event does to the orders.
- `Server`: the handlers.

Points where the code behaves differently from what one might expect of a
checkout, all of which the model follows:

- Checkout runs its statements without a transaction. If an order item
  insert throws, the pending order stays with the items written before it.
- Checkout deletes the user's whole cart, not only the snapshotted lines.
  Lines whose product no longer exists are deleted as well.
- A gateway failure leaves the pending order, its items and the emptied cart.
- Quantities are not checked. Adding a zero or negative quantity inserts or
  changes a line. Setting a quantity deletes the line only when the quantity
  is not positive.
- The webhook sets the status to paid whatever the order's current status.

## Model

| member | source | states |
|---|---|---|
| Access.Authenticate | frontend/backend/server.js:20-31 | a request gets through exactly when verified claims are present; otherwise it is refused as unauthenticated |
| Access.AdminGate | frontend/backend/server.js:33-36 | only verified claims with the admin flag pass; no token is refused as unauthenticated, a non-admin as admins-only |
| Access.EnvOr | frontend/backend/server.js:229-230 | an unset or empty environment value yields the fallback, any other value is used as is |
| OrderRef.IdToString | frontend/backend/server.js:231 | the id's decimal numeral is non-empty, all digits, and has no leading zero |
| OrderRef.ParseId | frontend/backend/server.js:277-279 | a reference denotes an id exactly when it is a non-empty run of decimal digits |
| OrderRef.ParseIdToString | frontend/backend/server.js:277-279 | reading back the reference checkout writes at line 231 gives the order's own id |
| OrderRef.IdToStringInjective | frontend/backend/server.js:231 | distinct order ids give distinct references |
| CartTable.Add | frontend/backend/server.js:145-150 | the existing line grows by the quantity, or a new line with the quantity appears; no second line for the pair; other lines unchanged |
| CartTable.SetQuantity | frontend/backend/server.js:162-166 | a non-positive quantity deletes the line; a positive one overwrites an existing line and creates none; other lines unchanged |
| CartTable.Remove | frontend/backend/server.js:177 | exactly the (user, product) line is gone; every other line is kept with its value |
| CartTable.ClearUser | frontend/backend/server.js:214 | no line of the user is left; every other user's lines are kept with their values; nothing is added |
| CartTable.SetNonPositiveRemoves | frontend/backend/server.js:162-163 | setting a non-positive quantity has the same effect as removing the line |
| CartTable.RemoveIdempotent | frontend/backend/server.js:177 | removing a line twice is the same as removing it once |
| CartTable.AddOneTwice | frontend/backend/server.js:145-150 | adding one unit twice to an absent product leaves a single line of quantity two |
| CartTable.SnapshotEmpty | frontend/backend/server.js:189-195 | the join is empty exactly when none of the user's cart lines names an existing product |
| CartTable.SnapshotsArePermutations | frontend/backend/server.js:189-194 | any two answers of the join over the same tables are permutations of each other |
| Pricing.Total | frontend/backend/server.js:197 | the left-to-right sum of quantity × price over the rows (its properties: TotalNonNegative, TotalPermutation, ItemsTotalFor, ChargedIsTotal) |
| Pricing.TotalNonNegative | frontend/backend/server.js:197 | when no row has a negative quantity or price, the total is not negative |
| Pricing.TotalPermutation | frontend/backend/server.js:197 | the total of the rows does not depend on their order |
| Pricing.SnapshotTotalDeterminate | frontend/backend/server.js:189-197 | whatever row order the join returns, checkout computes the same total |
| Pricing.TotalExample | frontend/backend/server.js:197 | two items at 19.99 and one at 5.00 total exactly 44.98 |
| Pricing.ItemsFor | frontend/backend/server.js:206-211 | one order item per row, in row order, carrying the order id and the row's product, quantity and price |
| Pricing.ItemsTotalFor | frontend/backend/server.js:197-211 | the inserted items add up to the order total |
| Pricing.NewOrderItems | frontend/backend/server.js:199-211 | after the inserts, reading the items of the new order gives exactly its rows' items, and they add up to the order total |
| Pricing.LineItems | frontend/backend/server.js:216-223 | one line item per row, in row order: dollars, the product title, the price in cents as unit amount, the row's quantity |
| Pricing.ChargedIsTotal | frontend/backend/server.js:197-223 | the session charges exactly the order total |
| OrdersTable.MarkPaid | frontend/backend/server.js:279 | the order the reference names, if it exists, becomes paid with its other fields kept; no other order changes and none appears or disappears |
| OrdersTable.ApplyEvent | frontend/backend/server.js:275-282 | only a completed-session event changes anything, and only the named order's status, to paid |
| OrdersTable.ApplyEventIdempotent | frontend/backend/server.js:275-282 | a redelivered event has the effect of a single delivery |
| OrdersTable.UnknownOrderUnchanged | frontend/backend/server.js:277-279 | an event whose reference names no existing order changes nothing |
| OrdersTable.CompletionPaysItsOrder | frontend/backend/server.js:275-279 | the completion event for the reference checkout wrote at line 231 marks exactly that order paid |
| OrdersTable.PaidStaysPaid | frontend/backend/server.js:275-282 | no event makes a paid order pending again |
| Server.SessionFor | frontend/backend/server.js:216-232 | the session request is card payment of the snapshot's line items, charges the order total, carries the configured urls, and its reference reads back as the order id |
| Server.Store.constructor | frontend/backend/server.js:229-230 | empty tables, both id sequences at 1, the redirect urls taken from the environment with the built-in fallbacks |
| Server.Store.CreateProduct | frontend/backend/server.js:86-98 | non-admins are refused with no change; an admin's product is stored under a fresh id, returned with its fields |
| Server.Store.UpdateProduct | frontend/backend/server.js:100-113 | non-admins are refused; an existing product gets all four fields replaced and is returned; an unknown id changes nothing and returns no row |
| Server.Store.DeleteProduct | frontend/backend/server.js:115-124 | non-admins are refused; otherwise exactly that product is removed (a no-op for an unknown id) and success is reported |
| Server.Store.AddToCart | frontend/backend/server.js:142-156 | unauthenticated requests change nothing; otherwise the cart becomes `Add` of the old cart for the user |
| Server.Store.SetCartQuantity | frontend/backend/server.js:158-172 | unauthenticated requests change nothing; otherwise the cart becomes `SetQuantity` of the old cart |
| Server.Store.RemoveFromCart | frontend/backend/server.js:174-183 | unauthenticated requests change nothing; otherwise the cart becomes `Remove` of the old cart |
| Server.Store.Snapshot | frontend/backend/server.js:189-194 | the rows are the join: one per cart line of the user whose product exists, with the line's quantity and the live title and price, no product twice |
| Server.Store.InsertOrder | frontend/backend/server.js:199-203 | the order is stored under the next sequence id, which no order or item held before |
| Server.Store.InsertItems | frontend/backend/server.js:205-211 | the items of the rows are appended in order; an insert that throws keeps the items before it; when all succeed the order's items are exactly its rows' and sum to the total |
| Server.Store.PlaceOrder | frontend/backend/server.js:197-237 | the writes of a non-empty checkout, phase by phase: order, items, cart delete, session, each with what a throwing statement leaves behind |
| Server.Store.ClearCartAndPay | frontend/backend/server.js:213-237 | the user's whole cart is deleted, then the session is requested; the reply is the gateway's url with the order, or a failure that keeps the pending order |
| Server.Store.Checkout | frontend/backend/server.js:186-239 | refusals before any write (no token, a failing join, an empty cart, a failing order insert) change nothing; otherwise the pending order with the snapshot's total, its items, the deleted cart and the session request, with no rollback on a later failure |
| Server.Store.Webhook | frontend/backend/server.js:263-285 | an event whose signature fails is rejected with no change; a verified event is acknowledged and the orders become `ApplyEvent` of the old orders |

## Left out

- HTTP transport, status codes and JSON bodies. A handler's answer is a `Reply` value, and each error response is one `Failure` case.
- Signup and login (lines 38-72), including password hashing and token signing. Token verification is also left out: a handler receives `Option<Claims>`, with `None` for a missing or invalid token.
- The Stripe SDK. The gateway's reply to the session request is an input, and the request is returned for inspection. The webhook's signature check is an input `Option<Event>`.
- Floating point. Prices are integer cents, so `parseFloat` and `Math.round(price * 100)` become exact integer arithmetic.
- Concurrency, and the asynchrony of the webhook's status update. The model applies the update before the acknowledgement. It does not model two requests interleaving, such as two concurrent adds of the same product.
- The webhook update's own failure. It is caught and only logged, so it means no change to the tables, which is also what the model does for a reference that names no order.
- Database failures in the cart and admin handlers. Each such failure leaves the tables unchanged and answers an error; these paths are not modelled.
- The read-only routes: `GET /api/products`, `GET /api/cart` and the admin orders listing (lines 241-260). `GET /api/cart` runs the same join as `Store.Snapshot`, plus the image column.
- Timestamps (`created_at`) and all other columns the handlers do not write.
- Foreign-key and other column constraints of the schema. They are not visible in the code. In particular, deleting a product always succeeds in the model.
- Request bodies and path parameters are taken as well-typed. A non-numeric product id in a path, and missing body fields that would reach the database as NULL, are not modelled.
- OrderRef.ParseId: only a non-empty run of decimal digits reads as an id. The database's integer input also accepts a sign and surrounding blanks, and rejects values outside the 4-byte range; those cases are not modelled.
- Server.Store.InsertOrder and Server.Store.CreateProduct: ids are modelled without gaps. In Postgres a sequence value taken by an insert that then fails is not given back, so real ids can skip values; the model's failing order insert leaves the counter as it was. No proved property depends on ids being consecutive.
- Server.Store.constructor: the redirect urls are read from the environment once, when the store is built. The code evaluates `SUCCESS_URL` and `CANCEL_URL` on every checkout (lines 229-230); nothing in `server.js` writes the environment, so the behaviour is the same.
- Whether the webhook's signature check can succeed at all. `express.json()` is installed for every route at line 14, before the raw parser of the webhook route at line 263, and the raw parser leaves an already parsed body alone. `constructEvent` at line 268 then plausibly receives a parsed object instead of the raw bytes and always throws, which would make `Store.Webhook` always take its rejected branch. This is a reading of the code, not executed; the model keeps the verdict as an input.
- The server setup, the startup code and the application shell outside `server.js`.
