# Cart-to-order logic of an Express/Mongoose shop backend, in Dafny

This project models the request handlers of a small e-commerce backend: the shopping
cart (`routes/cart.js`), the orders (`routes/orders.js`) and the product catalog
(`routes/products.js`), over the `Cart` and `Order` documents (`models/Cart.js`,
`models/Order.js`). The MongoDB collections are held in memory by one class,
`Shop.Store`:

- `carts`: a map from customer id to that customer's cart;
- `catalog` and `productIds`: a map from product id to product, plus the ids in
  insertion order, which the model takes as the order of an unsorted `Product.find()`;
- `orders`: the sequence of placed orders.

Each route handler is one method of `Store`, and each handler that changes the store
states its whole new state. Handlers that can fail return `Ok(status, value)` or
`Err(status)`. `AllOrders` returns the stored orders directly, because the only
failure of `GET /orders/getallorders` is a database error, which is not modelled. `Store.Valid()` is the
invariant every handler keeps:

- every cart is filed under its own customer id;
- a cart has at most one line per product, and every line's quantity is positive;
- every product has a non-empty name and a positive price;
- product ids and order ids are unique.

The cart schema does not enforce this invariant, as `Models.SchemaAdmitsIllFormedCarts`
shows; only the handlers do.

The list logic lives in pure modules, with lemmas about it:

- `CartLogic`: find-index, merge on add, set or splice on update, filter on delete, and
  the cart view's map and reduce;
- `OrderLogic`: a customer's orders, sorted newest first;
- `Paging`: `parseInt(x) || d`, the database's `skip`/`limit` window, and
  `Math.ceil(total / limit)`;
- `ProductLogic`: body validation, the key-by-key merge of a product update, and the
  filtered listing.

`Scenario` holds four separate sessions, each checked from the handlers' contracts
alone:

- `CartSession` starts from an empty store, adds a 10.00 product to the catalog, adds
  2 of it to a new cart and views a 20.00 cart.
- `RepeatedAdd` starts from a store assigned directly (one product, a cart holding 2
  of it), adds 3 more to reach 5, and is refused with 404 for an unknown product.
- `CheckoutSession` starts from a cart of 5 assigned directly, checks out, finds the
  cart kept with no lines, and is refused with 400 on a second checkout.
- `OrderHistory` starts from one order assigned directly, lists it for its customer,
  and gets 403 when another caller asks for that customer's orders.

Modelling choices:

- Prices are integers (cents), so totals are exact.
- Identifiers are strings compared with `==`, and are assumed to arrive in the
  database's canonical form (lowercase hexadecimal). The source mixes two comparisons.
  Database lookups (`Product.findById`, `Cart.findOne`) cast the request's id to an
  ObjectId, which also accepts uppercase hexadecimal. The line search, the delete
  filter and the 403 checks compare strings (routes/cart.js:35, 70, 109;
  routes/orders.js:96). On canonical ids the two agree.
- The caller's authenticated user id is a plain parameter.
- Ids the database generates (`_id` of a new product or order) are parameters, and
  so is the server clock that gives `orderDate`.
- A query parameter after `parseInt` is an `Option<int>`, where `None` stands for a
  missing or non-numeric value (NaN).

Choices that follow the code:

- An order line holds only a product reference and a quantity (models/Order.js:6-11),
  not a frozen unit price.
- A missing cart, or a product not in the cart, gives 400, not 404
  (routes/cart.js:66, 72, 105).
- Both order listings return status 200 with a page object. A negative `page` or
  `limit` is not rejected: it reaches the database, so a negative skip fails with 500.

## Model

| member | source | states |
|---|---|---|
| `Models.ToOrderItems` | routes/orders.js:29-33 | the order's lines are the cart's lines one for one, in order, with the same product and quantity |
| `Models.NewOrder` | models/Order.js:4-15 | a new order carries the caller's customer id, the cart's lines without any price, and the shipping details; its date is the server clock and its status defaults to "Processing" |
| `Models.SchemaAdmitsIllFormedCarts` | models/Cart.js:3-11 | the schema admits a cart with two lines for one product and a cart with a zero quantity; uniqueness and positivity come only from the handlers |
| `Paging.ParseOr` | routes/orders.js:65-66 | `parseInt(x) \|\| d` is never 0; a missing, non-numeric or zero value becomes the default; any other value, negative ones included, is kept |
| `Paging.CeilDiv` | routes/orders.js:75 | the page count is the ceiling of total / limit: (r-1)·limit < total <= r·limit for a positive limit, mirrored for a negative one |
| `Paging.Window` | routes/orders.js:71-72 | skip/limit fails for a negative skip; otherwise it yields the elements from position skip, at most \|limit\| of them (all when limit is 0), and nothing past the end |
| `Paging.TotalPagesCountsNonEmptyPages` | routes/orders.js:71-75 | with a positive limit, page p is non-empty exactly when p <= totalPages |
| `Paging.EveryDocumentOnItsPage` | routes/orders.js:71-75 | with a positive limit, every document appears on page k / limit + 1, at position k % limit, and that page is within totalPages |
| `CartLogic.FindIndex` | routes/cart.js:35 | the result is -1 exactly when no line has the product; otherwise it is the first line with that product |
| `CartLogic.AddItem` | routes/cart.js:34-39 | adding raises p's quantity by exactly q and leaves every other product's quantity alone; it merges into the existing line, keeping length, order and other lines, or appends one line at the end; it keeps one line per product, and positive quantities when q > 0 |
| `CartLogic.SetQuantity` | routes/cart.js:75-79 | in a cart with one line per product, p's quantity becomes exactly q and no other quantity changes; 0 splices out that line only, keeping the others in order; a positive q overwrites without merging; one line per product and positivity are kept |
| `CartLogic.RemoveProduct` | routes/cart.js:109 | after the filter no line has the product, and a line is in the result exactly when it was in the cart for another product |
| `CartLogic.RemoveKeepsWellFormed` | routes/cart.js:109 | the filter keeps one line per product and positive quantities |
| `CartLogic.RemoveProductQuantities` | routes/cart.js:109 | delete clears the product's quantity and leaves every other product's quantity unchanged |
| `CartLogic.RemoveAbsent` | routes/cart.js:109 | deleting a product the cart does not hold changes nothing and is not an error |
| `CartLogic.RemoveIdempotent` | routes/cart.js:109 | deleting twice is deleting once |
| `CartLogic.RemoveIsSplice` | routes/cart.js:103-109 | in a cart with one line per product, delete removes exactly the product's line, keeping the others in order |
| `CartLogic.DeleteIsUpdateToZero` | routes/cart.js:75-109 | deleting a product and updating its quantity to 0 leave the same cart |
| `CartLogic.Lines` | routes/cart.js:131-137 | the view has one line per cart line, in order, with the current name, description and price, and total = quantity × price |
| `CartLogic.ReduceIsCartTotal` | routes/cart.js:139 | the left-fold reduce over the line totals equals the sum of quantity × current price |
| `CartLogic.ViewCart` | routes/cart.js:125-141 | an absent or empty cart gives the explicit empty answer; a line whose product left the catalog gives 500; otherwise the lines are exactly `Lines` of the cart (one per cart line, in order, with the product's current name, description and price, and total = quantity × price), and totalAmount is their sum |
| `CartLogic.AddItemTotal` | routes/cart.js:35-39 | adding q of a product raises the cart's amount by q × its current price |
| `OrderLogic.OrdersOf` | routes/orders.js:68-74 | the query keeps exactly the orders of that customer, and no order twice |
| `OrderLogic.InsertKeepsNewestFirst` | routes/orders.js:70 | inserting an order by date into a newest-first list keeps it newest first |
| `OrderLogic.SortNewestFirst` | routes/orders.js:70 | the result is sorted by orderDate descending and is a permutation of the input |
| `OrderLogic.ListOrders` | routes/orders.js:65-82 | page and limit default through `parseInt \|\| d`; a negative skip gives 500; otherwise the page is the window at (page-1)·limit of the customer's orders newest first: at most \|limit\| orders, all the customer's, sorted; empty past the end, while totalOrders (that customer's count) and totalPages = ceil(totalOrders / limit) are still reported |
| `ProductLogic.ApplyUpdates` | routes/products.js:50-52 | the forEach over the body's keys gives the product with each key assigned in turn |
| `ProductLogic.ApplyFieldsProvided` | routes/products.js:50-52 | every key the body provides ends up with the body's value |
| `ProductLogic.ApplyFieldsUntouched` | routes/products.js:50-52 | every key the body does not provide keeps its old value |
| `ProductLogic.ApplyFieldsKeepsOk` | routes/products.js:31-36 | an update that passed validation keeps a non-empty name and a positive price |
| `ProductLogic.RemoveId` | routes/products.js:68 | deleting a product removes exactly its id from the natural order and keeps ids unique |
| `ProductLogic.Matching` | routes/products.js:83-85 | the query's result is no longer than the id list; its members, completeness, distinctness and order are the lemmas below |
| `ProductLogic.MatchingSound` | routes/products.js:83-85 | every listed entry is a product of the id list, with its current fields, of the requested category |
| `ProductLogic.MatchingComplete` | routes/products.js:83-85 | every product of the id list in the requested category is listed, with its current fields |
| `ProductLogic.MatchingDistinct` | routes/products.js:83-85 | over distinct ids no product is listed twice |
| `ProductLogic.MatchingAppend` | routes/products.js:83-85 | the listing keeps the natural order: listing a concatenation lists each part in turn |
| `ProductLogic.MatchingCount` | routes/products.js:83-94 | over distinct ids the listing has exactly as many entries as there are matching products, the count that `countDocuments` gives |
| `ProductLogic.MatchingAll` | routes/products.js:83 | with no category, or an empty one, the query returns the whole catalog in natural order |
| `ProductLogic.ListProducts` | routes/products.js:82-95 | page and limit default only when absent; a negative skip gives 500; otherwise the page is the window at (page-1)·limit of the matching products, each a catalog product of the category; totalPages = ceil(count / limit), where over distinct ids count is the number of matching products, or null when limit is 0 |
| `Shop.Store.AddToCart` | routes/cart.js:9-48 | 400 for an empty product id or a non-positive quantity; 404 for a product not in the catalog, with every cart unchanged; otherwise the cart is created if needed and the product added with merge semantics; only that customer's cart changes |
| `Shop.Store.UpdateCart` | routes/cart.js:51-87 | succeeds exactly when the input is valid, the cart exists and holds the product; every failure is 400 and changes nothing; on success the line is set or spliced out |
| `Shop.Store.RemoveFromCart` | routes/cart.js:90-117 | succeeds exactly when the product id is non-empty and the cart exists, even when the product is absent; otherwise 400 and nothing changes |
| `Shop.Store.GetCart` | routes/cart.js:120-145 | the caller's cart view as ViewCart states it: empty answer without a cart or lines, 500 for a product no longer in the catalog, otherwise the priced lines and their sum |
| `Shop.Store.PlaceOrder` | routes/orders.js:10-44 | empty shipping details, or a missing or empty cart, give 400 and create no order; otherwise exactly one order is appended, with the caller's id, the cart's lines, the shipping details, the server's date and status "Processing"; then the cart is kept with zero lines; when clearing the cart fails, the order is already saved and the cart keeps its lines |
| `Shop.Store.AllOrders` | routes/orders.js:47-57 | every stored order is returned, with no identity check |
| `Shop.Store.MyOrders` | routes/orders.js:60-86 | the caller's paginated listing, as ListOrders states it |
| `Shop.Store.CustomerOrders` | routes/orders.js:89-124 | 403 with no query when the caller's id string differs from the path's; otherwise the paginated listing of that customer |
| `Shop.Store.AddProduct` | routes/products.js:7-27 | an empty name or a non-positive price gives 400 and changes nothing; otherwise 201 and the catalog grows by exactly the new product with the given fields, at the end of the natural order |
| `Shop.Store.UpdateProduct` | routes/products.js:30-60 | a provided empty name or non-positive price gives 400; an unknown id gives 404; both leave the catalog unchanged; otherwise only that product changes, by the key-by-key merge |
| `Shop.Store.DeleteProduct` | routes/products.js:63-77 | an unknown id gives 404 and changes nothing; otherwise only that product leaves the catalog, and carts keep their lines for it |
| `Shop.Store.GetProducts` | routes/products.js:80-100 | the filtered, paginated listing of the catalog in natural order, as ListProducts states it |

## Left out

- Authentication is not modelled: `routes/auth.js` (bcrypt, JWT signing) and
  `middleware/authMiddleware.js` (JWT verification) are calls into foreign libraries.
  The authenticated user id is a parameter, and the user model is not part of this
  model.
- Server start-up, the database connection and the error middleware (`index.js`) are
  I/O plumbing.
- The two order routes at routes/cart.js:147-176 are not modelled. They use `Order`,
  which routes/cart.js never imports. `GET /cart/getallorders` (routes/cart.js:148-157)
  therefore always answers 500. `GET /cart/orders/customer/:customerId`
  (routes/cart.js:161-176) answers 401 from the authentication middleware without a
  valid token, 403 when the caller's id differs from the path's (routes/cart.js:163-165),
  and 500 otherwise.
- Most database failures (every `catch` → 500) are not modelled. Two are: a negative
  `skip` in a listing, and a failed cart save after an order is saved.
- Shop.Store.PlaceOrder: only the failure of the cart save is modelled, not a failure
  of the order save. The two saves run one after the other, with nothing in between.
  Concurrent requests, and an add that slips between checkout's read and its clear,
  are not modelled.
- Prices are integral cents, not floating point. `Math.ceil` is taken on exact
  quotients.
- JavaScript coercion is not modelled. A string quantity would concatenate on `+=`
  (routes/cart.js:37) and would fail `=== 0` (routes/cart.js:75). Quantities are
  integers.
- Query strings are not parsed in the model. In routes/orders.js the result of
  `parseInt` is given as an `Option<int>`. In routes/products.js `page` and `limit` are
  integers, and a non-numeric string (NaN) is not modelled.
- Shop.Store.AddToCart: product ids are assumed to arrive in canonical lowercase form.
  With a non-canonical spelling of a product the cart already holds (uppercase hex),
  the source finds the product through the ObjectId cast (routes/cart.js:23) but no
  matching line through the string comparison (routes/cart.js:35), so it appends a
  second line for the same product (routes/cart.js:39) and answers 200. The model
  compares the exact string and answers 404, so the one-line-per-product invariant
  holds in the model but not in the source for such requests.
  `Shop.Store.UpdateProduct` and `Shop.Store.DeleteProduct` (`findById` and
  `findByIdAndDelete`, routes/products.js:44, 68) would likewise find a product under such a spelling, where the
  model answers 404.
- Malformed ids are not modelled. Mongoose would throw a cast error (500) on an id that
  is not an ObjectId string; ids here are opaque strings.
- express-validator's `check` also reads query, params, cookies and headers. Only the
  body is modelled.
- `models/Product.js` is not part of this model. The product fields (name,
  description, price, category) are those the handlers read and write.
- An update body may hold only those four keys. Mongoose's handling of other keys is
  not modelled.
- At checkout, `populate` would turn a line whose product was deleted into a null
  reference. The model's order line keeps the product id.
- The display fields that listings fetch through `populate` are not modelled: customer
  name and email, and product name, price and description.
- The order of an unsorted `Product.find()` is assumed to be insertion order
  (`productIds`), and so is the order of the unsorted `Order.find()` in
  routes/orders.js:49 (`Shop.Store.AllOrders` returns `orders` as stored). MongoDB
  promises no natural order, so both orders are assumptions of the model.
- Orders with equal `orderDate` come out of `SortNewestFirst` in one fixed order. The
  database promises no order among them.
- Response messages and JSON framing are not modelled, only the status code and the
  payload.
