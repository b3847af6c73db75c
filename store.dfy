/** The database as the route handlers see it (carts, products, orders) and one method
    per handler of routes/cart.js, routes/orders.js and routes/products.js. Request
    validation, the database's generated ids and the clock are method parameters; the
    authenticated user id is a string parameter. */
module Shop {
  import opened Models
  import opened Paging
  import opened CartLogic
  import opened OrderLogic
  import opened ProductLogic

  /** `Cart.findOne({customerId: c})`. */
  function CartOf(carts: map<CustomerId, Cart>, c: CustomerId): (r: Option<Cart>) {
    if c in carts then Some(carts[c]) else None
  }

  /** The lines of c's cart; a customer without a cart holds none. */
  function ItemsOf(carts: map<CustomerId, Cart>, c: CustomerId): (r: seq<CartItem>) {
    if c in carts then carts[c].items else []
  }

  class Store {
    var carts: map<CustomerId, Cart>
    var catalog: map<ProductId, Product>
    /** The catalog's ids in insertion order, taken as the order of an unsorted `Product.find()`. */
    var productIds: seq<ProductId>
    var orders: seq<Order>

    /** What the handlers keep true: each cart is filed under its owner, holds one
        positive line per product; products passed validation; ids are unique. */
    ghost predicate Valid()
      reads this
    {
      && (forall c :: c in carts ==> carts[c].customerId == c && WellFormed(carts[c].items))
      && (forall id :: id in catalog ==> ProductOk(catalog[id]))
      && Distinct(productIds)
      && (forall id :: id in productIds <==> id in catalog)
      && (forall i, j :: 0 <= i < j < |orders| ==> orders[i].id != orders[j].id)
    }

    /** The database never hands out an order id twice. */
    predicate OrderIdFree(id: OrderId)
      reads this
    {
      forall k :: 0 <= k < |orders| ==> orders[k].id != id
    }

    constructor ()
      ensures Valid()
      ensures carts == map[] && catalog == map[] && productIds == [] && orders == []
    {
      carts, catalog, productIds, orders := map[], map[], [], [];
    }

    // ---- routes/cart.js ----

    /** `POST /cart/add` (routes/cart.js:9-48). */
    method AddToCart(customer: CustomerId, productId: ProductId, quantity: int) returns (r: Response<Cart>)
      requires Valid()
      modifies this
      ensures Valid()
      ensures catalog == old(catalog) && productIds == old(productIds) && orders == old(orders)
      ensures productId == "" || quantity <= 0 ==> r == Err(400) && carts == old(carts)
      ensures productId != "" && quantity > 0 && productId !in catalog ==> r == Err(404) && carts == old(carts)
      ensures productId != "" && quantity > 0 && productId in catalog ==>
                && r == Ok(200, Cart(customer, AddItem(ItemsOf(old(carts), customer), productId, quantity)))
                && carts == old(carts)[customer := r.value]
    {
      if productId == "" || quantity <= 0 {
        return Err(400);
      }
      if productId !in catalog {
        return Err(404);
      }
      var cart := if customer in carts then carts[customer] else Cart(customer, []);
      var items := cart.items;
      var i := FindIndex(items, productId);
      if i > -1 {
        items := items[i := items[i].(quantity := items[i].quantity + quantity)];
      } else {
        items := items + [CartItem(productId, quantity)];
      }
      cart := cart.(items := items);
      carts := carts[customer := cart];
      r := Ok(200, cart);
    }

    /** `PUT /cart/update` (routes/cart.js:51-87). */
    method UpdateCart(customer: CustomerId, productId: ProductId, quantity: int) returns (r: Response<Cart>)
      requires Valid()
      modifies this
      ensures Valid()
      ensures catalog == old(catalog) && productIds == old(productIds) && orders == old(orders)
      ensures r.Ok? <==> productId != "" && quantity >= 0 && customer in old(carts)
                         && FindIndex(old(carts)[customer].items, productId) >= 0
      ensures r.Err? ==> r.status == 400 && carts == old(carts)
      ensures r.Ok? ==>
                var items := old(carts)[customer].items;
                && r == Ok(200, Cart(customer, SetQuantity(items, FindIndex(items, productId), quantity)))
                && carts == old(carts)[customer := r.value]
    {
      if productId == "" || quantity < 0 {
        return Err(400);
      }
      if customer !in carts {
        return Err(400);
      }
      var cart := carts[customer];
      var i := FindIndex(cart.items, productId);
      if i == -1 {
        return Err(400);
      }
      var items := cart.items;
      if quantity == 0 {
        items := items[..i] + items[i + 1..];
      } else {
        items := items[i := items[i].(quantity := quantity)];
      }
      cart := cart.(items := items);
      carts := carts[customer := cart];
      r := Ok(200, cart);
    }

    /** `DELETE /cart/delete` (routes/cart.js:90-117). */
    method RemoveFromCart(customer: CustomerId, productId: ProductId) returns (r: Response<Cart>)
      requires Valid()
      modifies this
      ensures Valid()
      ensures catalog == old(catalog) && productIds == old(productIds) && orders == old(orders)
      ensures r.Ok? <==> productId != "" && customer in old(carts)
      ensures r.Err? ==> r.status == 400 && carts == old(carts)
      ensures r.Ok? ==>
                && r == Ok(200, Cart(customer, RemoveProduct(old(carts)[customer].items, productId)))
                && carts == old(carts)[customer := r.value]
    {
      if productId == "" || customer !in carts {
        return Err(400);
      }
      var cart := carts[customer];
      RemoveKeepsWellFormed(cart.items, productId);
      cart := cart.(items := RemoveProduct(cart.items, productId));
      carts := carts[customer := cart];
      r := Ok(200, cart);
    }

    /** `GET /cart` (routes/cart.js:120-145). */
    method GetCart(customer: CustomerId) returns (r: Response<CartView>)
      ensures r == ViewCart(CartOf(carts, customer), catalog)
    {
      r := ViewCart(CartOf(carts, customer), catalog);
    }

    // ---- routes/orders.js ----

    /** `POST /orders/placeorder` (routes/orders.js:10-44). The order is saved first and
        the cart emptied second; `clearFails` says whether that second save throws. */
    method PlaceOrder(customer: CustomerId, shippingDetails: string, orderId: OrderId, now: int, clearFails: bool)
      returns (r: Response<OrderId>)
      requires Valid() && OrderIdFree(orderId)
      modifies this
      ensures Valid()
      ensures catalog == old(catalog) && productIds == old(productIds)
      ensures shippingDetails == "" || ItemsOf(old(carts), customer) == [] ==>
                r == Err(400) && carts == old(carts) && orders == old(orders)
      ensures shippingDetails != "" && ItemsOf(old(carts), customer) != [] ==>
                && orders == old(orders) + [NewOrder(orderId, customer, old(carts)[customer].items, shippingDetails, now)]
                && (clearFails ==> r == Err(500) && carts == old(carts))
                && (!clearFails ==> r == Ok(200, orderId) && carts == old(carts)[customer := Cart(customer, [])])
    {
      if shippingDetails == "" {
        return Err(400);
      }
      if customer !in carts || carts[customer].items == [] {
        return Err(400);
      }
      var cart := carts[customer];
      var order := NewOrder(orderId, customer, cart.items, shippingDetails, now);
      orders := orders + [order];
      if clearFails {
        return Err(500);
      }
      cart := cart.(items := []);
      carts := carts[customer := cart];
      r := Ok(200, order.id);
    }

    /** `GET /orders/getallorders` (routes/orders.js:47-57): no caller identity is asked for. */
    method AllOrders() returns (r: seq<Order>)
      ensures r == orders
    {
      r := orders;
    }

    /** `GET /orders/myorders` (routes/orders.js:60-86). */
    method MyOrders(userId: CustomerId, pageQ: Option<int>, limitQ: Option<int>) returns (r: Response<OrderPage>)
      ensures r == ListOrders(orders, userId, pageQ, limitQ)
    {
      r := ListOrders(orders, userId, pageQ, limitQ);
    }

    /** `GET /orders/customer/:customerId` (routes/orders.js:89-124): refused with 403,
        before any query, unless the caller's id string equals the path's. */
    method CustomerOrders(userId: CustomerId, customerId: CustomerId, pageQ: Option<int>, limitQ: Option<int>)
      returns (r: Response<OrderPage>)
      ensures userId != customerId ==> r == Err(403)
      ensures userId == customerId ==> r == ListOrders(orders, customerId, pageQ, limitQ)
    {
      if userId != customerId {
        return Err(403);
      }
      r := ListOrders(orders, customerId, pageQ, limitQ);
    }

    // ---- routes/products.js ----

    /** `POST /products` (routes/products.js:7-27); `newId` is the id the database assigns. */
    method AddProduct(newId: ProductId, name: string, description: Option<string>, price: int, category: Option<string>)
      returns (r: Response<ProductId>)
      requires Valid() && newId !in catalog
      modifies this
      ensures Valid()
      ensures carts == old(carts) && orders == old(orders)
      ensures name == "" || price <= 0 ==>
                r == Err(400) && catalog == old(catalog) && productIds == old(productIds)
      ensures name != "" && price > 0 ==>
                && r == Ok(201, newId)
                && catalog == old(catalog)[newId := Product(name, description, price, category)]
                && productIds == old(productIds) + [newId]
    {
      if name == "" || price <= 0 {
        return Err(400);
      }
      catalog := catalog[newId := Product(name, description, price, category)];
      productIds := productIds + [newId];
      r := Ok(201, newId);
    }

    /** `PUT /products/updateproduct/:productId` (routes/products.js:30-60). */
    method UpdateProduct(id: ProductId, updates: seq<Field>) returns (r: Response<()>)
      requires Valid() && DistinctKeys(updates)
      modifies this
      ensures Valid()
      ensures carts == old(carts) && orders == old(orders) && productIds == old(productIds)
      ensures !UpdateOk(updates) ==> r == Err(400) && catalog == old(catalog)
      ensures UpdateOk(updates) && id !in old(catalog) ==> r == Err(404) && catalog == old(catalog)
      ensures UpdateOk(updates) && id in old(catalog) ==>
                && r == Ok(200, ())
                && catalog == old(catalog)[id := ApplyFields(old(catalog)[id], updates)]
    {
      if !UpdateOk(updates) {
        return Err(400);
      }
      if id !in catalog {
        return Err(404);
      }
      var product := ApplyUpdates(catalog[id], updates);
      ApplyFieldsKeepsOk(catalog[id], updates);
      catalog := catalog[id := product];
      r := Ok(200, ());
    }

    /** `DELETE /products/deleteproduct/:productId` (routes/products.js:63-77). Carts that
        hold the product keep their lines. */
    method DeleteProduct(id: ProductId) returns (r: Response<()>)
      requires Valid()
      modifies this
      ensures Valid()
      ensures carts == old(carts) && orders == old(orders)
      ensures id !in old(catalog) ==> r == Err(404) && catalog == old(catalog) && productIds == old(productIds)
      ensures id in old(catalog) ==>
                && r == Ok(200, ())
                && catalog == old(catalog) - {id}
                && productIds == RemoveId(old(productIds), id)
    {
      if id !in catalog {
        return Err(404);
      }
      catalog := catalog - {id};
      productIds := RemoveId(productIds, id);
      r := Ok(200, ());
    }

    /** `GET /products` (routes/products.js:80-100). */
    method GetProducts(pageQ: Option<int>, limitQ: Option<int>, category: Option<string>) returns (r: Response<ProductPage>)
      requires Valid()
      ensures r == ListProducts(productIds, catalog, pageQ, limitQ, category)
    {
      r := ListProducts(productIds, catalog, pageQ, limitQ, category);
    }
  }
}
