# Cart, favourites and orders of the food-delivery user controller

This project models the cart, favourites and order handlers of the storefront's user
controller (`server/controllers/User.js`). It proves properties of that model in Dafny.

- **Cart.** A user's cart is an ordered list of `{ product, quantity }` lines.
  - `addToCart` merges into the first line for the product, or appends a new line.
  - `removeFromCart` subtracts a positive quantity and splices out a line that drops to zero or below.
    Any other quantity splices out the line at once.
- **Favourites.** A list of product ids. `addToFavorites` pushes an id only when it is absent.
  `removeFromFavorites` filters the id out.
- **Checkout.** `placeOrder` validates the payload (products, address, total) before it reads or writes anything.
  It then saves an order with status `"Payment Done"` and only afterwards empties the cart.
- **History.** `getAllOrders` returns the caller's orders sorted by creation time, newest first, with their count.

Layout:

- `Domain.dfy`: product and user ids (opaque ObjectIds compared by equality), `Line`, `Option`, `Outcome`.
- `Cart.dfy`: the cart as a value. `IndexOf` models `findIndex`; `Added` and `Removed` give the cart after each handler.
  The lemmas cover merge, removal and the invariant (one line per product, all quantities positive).
- `Favourites.dfy`: `WithFavourite` and `Without` (the filter), with idempotence, order and multiplicity lemmas.
- `Orders.dfy`: the order record, the checkout payload and its validation, the
  `find({ user })` filter, an insertion sort on `createdAt` descending, and lemmas about the history.
- `Documents.dfy`: the stored documents as classes. `User` holds `cart` and `favourites` fields.
  `OrderLedger` holds the `Orders` collection and a clock.
  Saving an order gives it the next id and the current clock value as its creation time, then advances the clock.
- `UserController.dfy`: the six handlers as methods that update the `User` object and the ledger.
  Each method's postcondition ties the new state to the functions above.
  It also has three client methods that walk through a cart session, a refused checkout and an accepted checkout.

Modelling choices:

- A handler gets the document `User.findById` returned, or `null`.
  - `removeFromCart` checks for `null`, and so does `placeOrder` after validation. Both answer 404 "User not found".
  - `addToCart`, `addToFavorites` and `removeFromFavorites` do not check. Reading a field of `null` throws,
    and the `catch` sends the exception to `next`. This is `Outcome.Thrown`.
- Quantities and the total are unbounded integers. The total is an integer number of cents.
- A payload field that is absent is `None`. A `products` value that is not an array is also `None`.
  Falsiness is modelled explicitly: the empty address and a zero total are rejected like absent ones.
- `save()` commits the in-memory state. Saving an order appends it to the ledger. No save fails in this model.

Three behaviours of the code that a reader might not expect:

- `addToCart` does not validate the quantity. The model accepts any integer.
  Adding a positive quantity keeps every quantity positive (`Cart.AddedKeepsWellFormed`).
  A zero or negative add can leave a line at zero or below, for instance a new product added with quantity -3.
  At most one line per product holds whatever the quantity (`Cart.AddedKeepsOneLinePerProduct`, `Cart.RemovedKeepsOneLinePerProduct`).
- `addToCart` on a missing user throws (`Thrown`). It does not answer 404.
- `placeOrder` checks neither each line's quantity nor whether the products exist in the catalog. It trusts the submitted total.
  The model does the same: every non-empty product list passes.

## Model

| member | source | states |
|---|---|---|
| `Cart.IndexOf` | server/controllers/User.js:72-74 | -1 exactly when no line has the product; otherwise a line for the product with none before it |
| `Cart.AddedShape` | server/controllers/User.js:72-81 | with a line for the product, only that line changes, and its quantity grows by exactly the added quantity; without one, `{product, quantity}` is appended at the end |
| `Cart.AddedMerges` | server/controllers/User.js:75-80 | the cart quantity of the product grows by the added quantity whether or not it had a line; every other product's quantity is unchanged |
| `Cart.AddedTwice` | server/controllers/User.js:72-80 | adding q1 and then q2 of a product gives the same cart as adding q1 + q2 once |
| `Cart.AddedKeepsOneLinePerProduct` | server/controllers/User.js:72-80 | add merges instead of duplicating, so a cart with at most one line per product keeps that property |
| `Cart.AddedKeepsWellFormed` | server/controllers/User.js:72-80 | adding a positive quantity to a well-formed cart (one line per product, all quantities positive) keeps it well-formed |
| `Cart.DeleteAtKeepsOneLinePerProduct` | server/controllers/User.js:106-109 | splicing one line out keeps at most one line per product |
| `Cart.DeleteAtRemovesProduct` | server/controllers/User.js:106-109 | with one line per product, splicing out the product's line leaves no line for it |
| `Cart.RemovedAbsent` | server/controllers/User.js:102-118 | for a product with no line (the 404 path) the cart is unchanged |
| `Cart.RemovedWholeLine` | server/controllers/User.js:103-110 | an absent, zero or negative quantity deletes the product's line, whatever its quantity: no line is left and the cart is one line shorter |
| `Cart.RemovedAtLeastAll` | server/controllers/User.js:103-107 | subtracting at least the current quantity deletes the line |
| `Cart.RemovedPart` | server/controllers/User.js:103-105 | subtracting less than the current quantity keeps the line at the same position with the remainder; every other line is unchanged |
| `Cart.RemovedKeepsOthers` | server/controllers/User.js:99-110 | a remove never changes the quantity of any other product |
| `Cart.RemovedKeepsOneLinePerProduct` | server/controllers/User.js:99-110 | remove only decrements or splices the first matching line, so a cart with at most one line per product keeps that property, whatever its quantities |
| `Cart.RemovedKeepsWellFormed` | server/controllers/User.js:102-110 | both remove branches keep a well-formed cart well-formed (a line dropping to zero or below is deleted) |
| `Favourites.WithFavourite` | server/controllers/User.js:276-279 | after add, the list holds exactly the old ids plus the added one, and it grows by at most one |
| `Favourites.Without` | server/controllers/User.js:259 | after remove, the list holds exactly the old ids other than the removed one, and it never grows |
| `Favourites.AddIdempotent` | server/controllers/User.js:276-279 | adding an id twice gives the same list as adding it once |
| `Favourites.AddKeepsNoDuplicates` | server/controllers/User.js:276-277 | add keeps every id unique |
| `Favourites.WithoutCounts` | server/controllers/User.js:259 | remove drops every occurrence of the id and keeps every other id exactly as often as before |
| `Favourites.WithoutConcat` | server/controllers/User.js:259 | remove keeps the other ids in order: filtering a concatenation is concatenating the filtered parts |
| `Favourites.WithoutAbsent` | server/controllers/User.js:259 | removing an id that is not in the list leaves the list unchanged |
| `Favourites.RemoveIdempotent` | server/controllers/User.js:259 | removing an id twice gives the same list as removing it once |
| `Favourites.RemoveKeepsNoDuplicates` | server/controllers/User.js:259 | remove keeps every id unique |
| `Favourites.RemoveAfterAdd` | server/controllers/User.js:254-287 | adding then removing an id gives the same list as only removing it |
| `Orders.Validate` | server/controllers/User.js:152-161 | a payload is accepted exactly when the products array is present and non-empty, the address is non-empty and the total is positive; a refusal names the first failing guard, checked in the source's order |
| `Orders.OrdersOf` | server/controllers/User.js:213 | the user filter keeps exactly the orders whose user is the caller, each as often as in the ledger |
| `Orders.Insert` | server/controllers/User.js:218 | inserting into a newest-first sequence gives a newest-first permutation of it with the order added |
| `Orders.SortNewestFirst` | server/controllers/User.js:218 | the sort result is in descending `createdAt` order and is a permutation of its input |
| `Orders.HistoryIsUsersOrdersNewestFirst` | server/controllers/User.js:213-219 | the history is newest first and holds exactly the caller's orders, with the ledger's multiplicities |
| `Orders.HistoryOfNoOrders` | server/controllers/User.js:213-233 | a user with no orders gets the empty history |
| `Orders.SortAppendNewest` | server/controllers/User.js:218 | an order newer than all others is put first by the sort, and the rest is sorted as before |
| `Orders.OrdersOfAppend` | server/controllers/User.js:213 | the filter of a ledger with one more order is the old filter, followed by that order if it belongs to the user |
| `Orders.HistoryAfterAppend` | server/controllers/User.js:213-219 | saving an order newer than every other order puts it at the head of its user's history; every other user's history is unchanged |
| `Orders.HistoryReversesLedger` | server/controllers/User.js:213-219 | on a ledger in creation order, the history is the user's orders with the most recently placed first |
| `Documents.OrderLedger.Save` | server/controllers/User.js:169-179 | saving appends exactly one order with the next id and the current time, advances the clock, and keeps ids and creation times consistent |
| `UserController.AddToCart` | server/controllers/User.js:67-89 | a missing user throws; otherwise the cart becomes `Added` of the old cart, the favourites are unchanged, one line per product is kept, and a positive quantity keeps a well-formed cart well-formed |
| `UserController.RemoveFromCart` | server/controllers/User.js:91-123 | a missing user, or a product with no line, is a 404 with the source's message and leaves the cart unchanged; otherwise the cart becomes `Removed` of the old cart, keeps one line per product, and stays well-formed if it was |
| `UserController.PlaceOrder` | server/controllers/User.js:141-201 | an invalid payload is a 400 and a missing user a 404, and neither touches the ledger or the cart; otherwise exactly one order is appended (submitted products, address and total, the user's id, "Payment Done"), the clock advances by one, the cart becomes empty, and the order heads the user's history |
| `UserController.GetAllOrders` | server/controllers/User.js:203-250 | the page lists exactly the caller's orders, newest first, with their count and `success`; an empty page is not an error |
| `UserController.RemoveFromFavorites` | server/controllers/User.js:254-268 | a missing user throws; otherwise the favourites become the filtered list and the cart is unchanged |
| `UserController.AddToFavorites` | server/controllers/User.js:270-287 | a missing user throws; otherwise the id is appended only when absent and the cart is unchanged |

## Left out

- `UserRegister` and `UserLogin`: these are password hashing and token signing in foreign libraries, with no logic of their own here.
- `getAllCartItems` and `getUserFavorites`: apart from a missing-user check (a 404 in `getUserFavorites`, a thrown error when `getAllCartItems` reads `user.cart`), their only work is a `populate` join with the catalog, which is a database read.
- Catalog enrichment of the placed order (`populate` after the save) and of the history: the model returns stored ids and quantities only.
- All `console.log` / `console.error` diagnostics.
- Failing `save()` calls and other storage errors: every save commits.
  So the model does not show an order that stays saved while the later cart save fails.
- Concurrent requests and lost updates: each handler runs as one uninterrupted step.
- Inputs that are not numbers: a string `quantity` that JavaScript's `+=` concatenates, an undefined quantity on add, and a NaN or fractional total.
- Schema casting and validation by Mongoose: `server/models/User.js` and `server/models/Orders.js` are not part of this model.
- ObjectIds are opaque values compared by equality. Order ids are ledger positions; `createdAt` is the ledger clock.
- Ties in `createdAt`: MongoDB leaves their order unspecified, and the insertion sort picks one. A valid ledger has no ties.
- Route wiring, the token middleware and the debug endpoint in `server/routes/User.js`: these are plumbing.
- The client pages `Orders.jsx` and `Contact.jsx`: these are rendering only.
- Cart.RemovedWholeLine: requires one line per product; on a cart with duplicate lines only the first line is deleted, so a line for the product may remain.
- Cart.RemovedAtLeastAll: requires one line per product, for the same reason.
- Cart.DeleteAtRemovesProduct: requires one line per product, for the same reason.
