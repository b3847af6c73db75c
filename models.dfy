/** The documents the handlers store and return: carts (models/Cart.js), orders
    (models/Order.js) and products, plus the response shape every handler produces. */
module Models {

  /** Identifiers are compared as strings (`toString()` in the handlers). */
  type CustomerId = string
  type ProductId = string
  type OrderId = string

  datatype Option<+T> = None | Some(value: T) {
    function GetOr(default: T): (r: T) {
      match this
      case Some(v) => v
      case None => default
    }
  }

  /** What a handler answers: an HTTP status, and on success the payload of the JSON body. */
  datatype Response<+T> = Ok(status: int, value: T) | Err(status: int)

  /** A cart line: a product reference and a quantity. The schema asks for both fields
      and nothing more: neither a positive quantity nor one line per product. */
  datatype CartItem = CartItem(product: ProductId, quantity: int)

  /** The one cart of a customer: its owner and its ordered line items. */
  datatype Cart = Cart(customerId: CustomerId, items: seq<CartItem>)

  /** An order line: a product reference and a quantity, with no price of its own. */
  datatype OrderItem = OrderItem(product: ProductId, quantity: int)

  /** A placed order; `id` is the document id the database assigns. */
  datatype Order = Order(
    id: OrderId,
    customerId: CustomerId,
    items: seq<OrderItem>,
    shippingDetails: string,
    orderDate: int,
    status: string)

  /** A catalog entry; prices are in integral cents. */
  datatype Product = Product(name: string, description: Option<string>, price: int, category: Option<string>)

  /** The status a new order starts with. */
  const Processing: string := "Processing"

  /** Copies cart lines into order lines, one for one and in order. */
  function ToOrderItems(items: seq<CartItem>): (r: seq<OrderItem>)
    ensures |r| == |items|
    ensures forall k :: 0 <= k < |items| ==>
              r[k].product == items[k].product && r[k].quantity == items[k].quantity
  {
    if items == [] then []
    else [OrderItem(items[0].product, items[0].quantity)] + ToOrderItems(items[1..])
  }

  /** `new Order({customerId, items, shippingDetails})`: the date is the server's clock
      `now`, never the request's, and the status is the schema default. */
  function NewOrder(id: OrderId, customerId: CustomerId, items: seq<CartItem>, shippingDetails: string, now: int): (o: Order)
    ensures o.id == id && o.customerId == customerId && o.shippingDetails == shippingDetails
    ensures o.orderDate == now && o.status == Processing
    ensures |o.items| == |items|
    ensures forall k :: 0 <= k < |items| ==>
              o.items[k].product == items[k].product && o.items[k].quantity == items[k].quantity
  {
    Order(id, customerId, ToOrderItems(items), shippingDetails, now, Processing)
  }

  /** At most one line item per product: `ProductLogic.Distinct` over the lines' products. */
  predicate Unique(items: seq<CartItem>) {
    forall i, j :: 0 <= i < j < |items| ==> items[i].product != items[j].product
  }

  /** Every line holds a positive quantity. */
  predicate AllPositive(items: seq<CartItem>) {
    forall k :: 0 <= k < |items| ==> items[k].quantity > 0
  }

  /** The invariant the cart handlers keep; the schema itself does not impose it. */
  predicate WellFormed(items: seq<CartItem>) {
    Unique(items) && AllPositive(items)
  }

  /** The schema admits carts that break the handlers' invariant: two lines for one
      product, and a line with quantity 0. */
  lemma SchemaAdmitsIllFormedCarts()
    ensures exists c: Cart :: !Unique(c.items)
    ensures exists c: Cart :: !AllPositive(c.items)
  {
    var c := Cart("customer", [CartItem("p", 1), CartItem("p", 0)]);
    assert c.items[0].product == c.items[1].product;
    assert !Unique(c.items);
    assert c.items[1].quantity == 0;
    assert !AllPositive(c.items);
  }
}
