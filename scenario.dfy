/** A customer's session through the handlers, checked from their contracts alone. */
module Scenario {
  import opened Models
  import opened Paging
  import opened CartLogic
  import opened OrderLogic
  import opened Shop

  /** Add 2 of a 10.00 product to a new cart and view it. */
  method CartSession() {
    var store := new Store();
    var added := store.AddProduct("p", "Mug", None, 1000, None);
    assert added == Ok(201, "p");

    assert "p" in store.catalog && ItemsOf(store.carts, "alice") == [];
    var cart := store.AddToCart("alice", "p", 2);
    assert AddItem([], "p", 2) == [CartItem("p", 2)] by {
      assert FindIndex([], "p") == -1;
    }
    assert cart == Ok(200, Cart("alice", [CartItem("p", 2)]));

    var view := store.GetCart("alice");
    assert CartTotal([CartItem("p", 2)], store.catalog) == 2000 by {
      assert [CartItem("p", 2)][1..] == [];
    }
    assert view.Ok? && view.value.totalAmount == 2000;
  }

  /** Add 3 more to a cart holding 2, then try a product the catalog does not hold. */
  method RepeatedAdd() {
    var store := new Store();
    store.catalog := map["p" := Product("Mug", None, 1000, None)];
    store.productIds := ["p"];
    store.carts := map["alice" := Cart("alice", [CartItem("p", 2)])];
    assert store.Valid();

    // Repeated adds accumulate.
    var cart := store.AddToCart("alice", "p", 3);
    assert AddItem([CartItem("p", 2)], "p", 3) == [CartItem("p", 5)] by {
      assert FindIndex([CartItem("p", 2)], "p") == 0;
    }
    assert cart == Ok(200, Cart("alice", [CartItem("p", 5)]));

    // An absent product is refused and the cart stays as it was.
    var missing := store.AddToCart("alice", "q", 1);
    assert missing == Err(404);
    assert store.carts["alice"] == Cart("alice", [CartItem("p", 5)]);
  }

  /** Check out a cart of 5 items, then look at the cart and check out again. */
  method CheckoutSession() {
    var store := new Store();
    store.carts := map["alice" := Cart("alice", [CartItem("p", 5)])];
    assert store.Valid();

    var placed := store.PlaceOrder("alice", "123 Main St", "o1", 100, false);
    assert placed == Ok(200, "o1");
    var order := NewOrder("o1", "alice", [CartItem("p", 5)], "123 Main St", 100);
    assert store.orders == [order];
    assert order.items == [OrderItem("p", 5)] && order.status == "Processing";

    // The cart is kept, with no lines.
    assert store.carts["alice"] == Cart("alice", []);
    var view := store.GetCart("alice");
    assert view == Ok(200, EmptyCart);

    // A second checkout finds the cart empty.
    var again := store.PlaceOrder("alice", "123 Main St", "o2", 200, false);
    assert again == Err(400);
  }

  /** A customer with one placed order sees it listed, and no one else may read it. */
  method OrderHistory() {
    var store := new Store();
    var order := NewOrder("o1", "alice", [CartItem("p", 5)], "123 Main St", 100);
    store.orders := [order];

    var mine := store.MyOrders("alice", None, None);
    assert OrdersOf([order], "alice") == [order];
    assert SortNewestFirst([order]) == [order];
    assert mine == Ok(200, OrderPage([order], 1, 1, 1));

    var theirs := store.CustomerOrders("bob", "alice", None, None);
    assert theirs == Err(403);
  }
}
