/** The list logic of the cart handlers (routes/cart.js): find a line, merge an add,
    set or splice on update, filter on delete, and price the cart for viewing. */
module CartLogic {
  import opened Models

  /** `items.findIndex(item => item.product === p)`: the first line for p, or -1. */
  function FindIndex(items: seq<CartItem>, p: ProductId): (i: int)
    ensures -1 <= i < |items|
    ensures i == -1 <==> forall k :: 0 <= k < |items| ==> items[k].product != p
    ensures 0 <= i ==> items[i].product == p && forall k :: 0 <= k < i ==> items[k].product != p
  {
    if items == [] then -1
    else if items[0].product == p then 0
    else
      var j := FindIndex(items[1..], p);
      if j == -1 then -1 else j + 1
  }

  /** How many of p the cart holds, read off its first line for p (0 without one). */
  function QuantityOf(items: seq<CartItem>, p: ProductId): (r: int) {
    var i := FindIndex(items, p);
    if i < 0 then 0 else items[i].quantity
  }

  /** The quantity held in a non-empty cart, read off its first line or the rest. */
  lemma QuantityOfCons(items: seq<CartItem>, o: ProductId)
    requires items != []
    ensures QuantityOf(items, o) == if items[0].product == o then items[0].quantity else QuantityOf(items[1..], o)
  {
  }

  /** In a cart with one line per product, the line at k is the one found for its product. */
  lemma FindIndexOfUnique(items: seq<CartItem>, k: int)
    requires Unique(items) && 0 <= k < |items|
    ensures FindIndex(items, items[k].product) == k
  {
  }

  /** The lines found for a product depend only on the products of the lines. */
  lemma FindIndexSameProducts(a: seq<CartItem>, b: seq<CartItem>, p: ProductId)
    requires |a| == |b|
    requires forall k :: 0 <= k < |a| ==> a[k].product == b[k].product
    ensures FindIndex(a, p) == FindIndex(b, p)
  {
    var i, j := FindIndex(a, p), FindIndex(b, p);
    if i >= 0 && j >= 0 {
      assert !(i < j) && !(j < i);
    }
  }

  /** Appending a line for another product leaves the search for p unchanged. */
  lemma FindIndexAppend(items: seq<CartItem>, x: CartItem, p: ProductId)
    requires x.product != p
    ensures FindIndex(items + [x], p) == FindIndex(items, p)
  {
    var i, j := FindIndex(items + [x], p), FindIndex(items, p);
    assert forall k :: 0 <= k < |items| ==> (items + [x])[k] == items[k];
    if i >= 0 && j >= 0 {
      assert !(i < j) && !(j < i);
    }
  }

  /** Adding q of p (routes/cart.js:35-39): merge into p's line if there is one,
      otherwise append a new line at the end. */
  function AddItem(items: seq<CartItem>, p: ProductId, q: int): (r: seq<CartItem>)
    ensures QuantityOf(r, p) == QuantityOf(items, p) + q
    ensures forall o :: o != p ==> QuantityOf(r, o) == QuantityOf(items, o)
    ensures Unique(items) ==> Unique(r)
    ensures AllPositive(items) && q > 0 ==> AllPositive(r)
    ensures FindIndex(items, p) >= 0 ==>
              && |r| == |items|
              && r[FindIndex(items, p)] == CartItem(p, items[FindIndex(items, p)].quantity + q)
              && forall k :: 0 <= k < |items| && k != FindIndex(items, p) ==> r[k] == items[k]
    ensures FindIndex(items, p) == -1 ==> r == items + [CartItem(p, q)]
  {
    var i := FindIndex(items, p);
    if i >= 0 then
      var r := items[i := CartItem(p, items[i].quantity + q)];
      assert forall o :: FindIndex(r, o) == FindIndex(items, o) by {
        forall o ensures FindIndex(r, o) == FindIndex(items, o) {
          FindIndexSameProducts(r, items, o);
        }
      }
      r
    else
      var r := items + [CartItem(p, q)];
      assert forall o :: o != p ==> FindIndex(r, o) == FindIndex(items, o) by {
        forall o | o != p ensures FindIndex(r, o) == FindIndex(items, o) {
          FindIndexAppend(items, CartItem(p, q), o);
        }
      }
      assert r[|items|].product == p;
      r
  }

  /** Removing line i while keeping the others in order (`splice(i, 1)`). */
  function RemoveAt(items: seq<CartItem>, i: int): (r: seq<CartItem>)
    requires 0 <= i < |items|
    ensures |r| == |items| - 1
  {
    items[..i] + items[i + 1..]
  }

  /** In a cart with one line per product, splicing out line i clears that line's
      product and leaves every other product's quantity alone. */
  lemma RemoveAtQuantities(items: seq<CartItem>, i: int)
    requires 0 <= i < |items|
    ensures Unique(items) ==> Unique(RemoveAt(items, i))
    ensures Unique(items) ==> QuantityOf(RemoveAt(items, i), items[i].product) == 0
    ensures Unique(items) ==>
              forall o :: o != items[i].product ==> QuantityOf(RemoveAt(items, i), o) == QuantityOf(items, o)
  {
    var r := RemoveAt(items, i);
    assert forall k :: 0 <= k < |r| ==> r[k] == items[if k < i then k else k + 1];
    forall o | Unique(items) && o != items[i].product
      ensures QuantityOf(r, o) == QuantityOf(items, o)
    {
      var j := FindIndex(items, o);
      if j >= 0 {
        var j' := if j < i then j else j - 1;
        assert r[j'] == items[j];
        FindIndexOfUnique(r, j');
      }
    }
  }

  /** Setting the quantity of line i (routes/cart.js:75-79): 0 splices the line out,
      anything else overwrites the quantity, with no merging. */
  function SetQuantity(items: seq<CartItem>, i: int, q: int): (r: seq<CartItem>)
    requires 0 <= i < |items|
    ensures Unique(items) ==> QuantityOf(r, items[i].product) == q
    ensures Unique(items) ==> forall o :: o != items[i].product ==> QuantityOf(r, o) == QuantityOf(items, o)
    ensures Unique(items) ==> Unique(r)
    ensures AllPositive(items) && q >= 0 ==> AllPositive(r)
    ensures q == 0 ==> r == RemoveAt(items, i)
    ensures q != 0 ==> |r| == |items| && r[i] == CartItem(items[i].product, q)
                       && forall k :: 0 <= k < |items| && k != i ==> r[k] == items[k]
  {
    if q == 0 then
      RemoveAtQuantities(items, i);
      RemoveAt(items, i)
    else
      var r := items[i := items[i].(quantity := q)];
      assert forall o :: FindIndex(r, o) == FindIndex(items, o) by {
        forall o ensures FindIndex(r, o) == FindIndex(items, o) {
          FindIndexSameProducts(r, items, o);
        }
      }
      if Unique(items) then
        FindIndexOfUnique(items, i);
        r
      else
        r
  }

  /** `items.filter(item => item.product !== p)` (routes/cart.js:109). */
  function RemoveProduct(items: seq<CartItem>, p: ProductId): (r: seq<CartItem>)
    ensures forall k :: 0 <= k < |r| ==> r[k].product != p
    ensures forall x :: x in r <==> x in items && x.product != p
  {
    if items == [] then []
    else
      var rest := RemoveProduct(items[1..], p);
      assert items == [items[0]] + items[1..];
      if items[0].product == p then rest else [items[0]] + rest
  }

  /** Delete keeps one line per product and positive quantities. */
  lemma {:induction false} RemoveKeepsWellFormed(items: seq<CartItem>, p: ProductId)
    ensures Unique(items) ==> Unique(RemoveProduct(items, p))
    ensures AllPositive(items) ==> AllPositive(RemoveProduct(items, p))
  {
    var r := RemoveProduct(items, p);
    if AllPositive(items) {
      forall k | 0 <= k < |r| ensures r[k].quantity > 0 {
        assert r[k] in items;
      }
    }
    if items != [] && Unique(items) {
      var tail := items[1..];
      assert Unique(tail) by {
        assert forall k :: 0 <= k < |tail| ==> tail[k] == items[k + 1];
      }
      RemoveKeepsWellFormed(tail, p);
      var rest := RemoveProduct(tail, p);
      if items[0].product != p {
        forall k | 0 <= k < |rest| ensures rest[k].product != items[0].product {
          assert rest[k] in tail;
          var j :| 0 <= j < |tail| && tail[j] == rest[k];
          assert tail[j] == items[j + 1];
        }
        assert r == [items[0]] + rest;
      }
    }
  }

  /** Deleting p clears its quantity and leaves every other product's quantity alone. */
  lemma {:induction false} RemoveProductQuantities(items: seq<CartItem>, p: ProductId, o: ProductId)
    ensures QuantityOf(RemoveProduct(items, p), p) == 0
    ensures o != p ==> QuantityOf(RemoveProduct(items, p), o) == QuantityOf(items, o)
  {
    if items != [] {
      RemoveProductQuantities(items[1..], p, o);
      if items[0].product != p {
        var r := [items[0]] + RemoveProduct(items[1..], p);
        assert r[1..] == RemoveProduct(items[1..], p);
        QuantityOfCons(r, p);
        QuantityOfCons(r, o);
      }
      QuantityOfCons(items, o);
    }
  }

  /** Deleting a product no line holds changes nothing. */
  lemma {:induction false} RemoveAbsent(items: seq<CartItem>, p: ProductId)
    requires forall k :: 0 <= k < |items| ==> items[k].product != p
    ensures RemoveProduct(items, p) == items
  {
    if items != [] {
      RemoveAbsent(items[1..], p);
      assert [items[0]] + items[1..] == items;
    }
  }

  /** Delete is idempotent. */
  lemma RemoveIdempotent(items: seq<CartItem>, p: ProductId)
    ensures RemoveProduct(RemoveProduct(items, p), p) == RemoveProduct(items, p)
  {
    RemoveAbsent(RemoveProduct(items, p), p);
  }

  lemma RemoveAtCons(items: seq<CartItem>, i: int)
    requires 0 < i < |items|
    ensures RemoveAt(items, i) == [items[0]] + RemoveAt(items[1..], i - 1)
  {
    assert items[..i] == [items[0]] + items[1..][..i - 1];
    assert items[i + 1..] == items[1..][i..];
  }

  lemma TailLacks(items: seq<CartItem>, p: ProductId, i: int)
    requires 0 <= i < |items|
    requires forall k :: 0 <= k < |items| && k != i ==> items[k].product != p
    ensures forall k :: 0 <= k < |items| - 1 && k != i - 1 ==> items[1..][k].product != p
  {
  }

  /** Filtering out the one line for p is splicing that line out. */
  lemma {:induction false} RemoveOnlyLine(items: seq<CartItem>, p: ProductId, i: int)
    requires 0 <= i < |items| && items[i].product == p
    requires forall k :: 0 <= k < |items| && k != i ==> items[k].product != p
    ensures RemoveProduct(items, p) == RemoveAt(items, i)
  {
    TailLacks(items, p, i);
    if i == 0 {
      RemoveAbsent(items[1..], p);
    } else {
      RemoveOnlyLine(items[1..], p, i - 1);
      RemoveAtCons(items, i);
    }
  }

  /** In a cart with one line per product, deleting p splices out exactly p's line. */
  lemma RemoveIsSplice(items: seq<CartItem>, p: ProductId)
    requires Unique(items) && FindIndex(items, p) >= 0
    ensures RemoveProduct(items, p) == RemoveAt(items, FindIndex(items, p))
  {
    RemoveOnlyLine(items, p, FindIndex(items, p));
  }

  /** Deleting p and updating p's quantity to 0 leave the same cart. */
  lemma DeleteIsUpdateToZero(items: seq<CartItem>, p: ProductId)
    requires Unique(items) && FindIndex(items, p) >= 0
    ensures RemoveProduct(items, p) == SetQuantity(items, FindIndex(items, p), 0)
  {
    RemoveIsSplice(items, p);
  }

  // ---- Viewing (routes/cart.js:125-141) ----

  /** One line of the cart view: the resolved product fields and the line total. */
  datatype LineView = LineView(product: string, description: Option<string>, quantity: int, price: int, total: int)

  /** `{message: 'Your cart is empty', cart: []}` or `{cart, totalAmount}`. */
  datatype CartView = EmptyCart | Details(lines: seq<LineView>, totalAmount: int)

  /** Every line's product is in the catalog: `ProductLogic.InCatalog` over the lines'
      product ids. */
  predicate AllInCatalog(items: seq<CartItem>, catalog: map<ProductId, Product>) {
    forall k :: 0 <= k < |items| ==> items[k].product in catalog
  }

  /** The reference amount: the sum over lines of quantity times the current price. */
  function CartTotal(items: seq<CartItem>, catalog: map<ProductId, Product>): (r: int)
    requires AllInCatalog(items, catalog)
  {
    if items == [] then 0
    else items[0].quantity * catalog[items[0].product].price + CartTotal(items[1..], catalog)
  }

  /** The `map` step: every line resolved against the current catalog. */
  function Lines(items: seq<CartItem>, catalog: map<ProductId, Product>): (r: seq<LineView>)
    requires AllInCatalog(items, catalog)
    ensures |r| == |items|
    ensures forall k :: 0 <= k < |items| ==>
              var pr := catalog[items[k].product];
              r[k] == LineView(pr.name, pr.description, items[k].quantity, pr.price, items[k].quantity * pr.price)
  {
    if items == [] then []
    else
      var pr := catalog[items[0].product];
      var rest := Lines(items[1..], catalog);
      assert forall k :: 1 <= k < |items| ==> items[k] == items[1..][k - 1];
      [LineView(pr.name, pr.description, items[0].quantity, pr.price, items[0].quantity * pr.price)] + rest
  }

  /** The `reduce((acc, item) => acc + item.total, 0)` step, a left fold. */
  function Reduce(lines: seq<LineView>, acc: int): (r: int) {
    if lines == [] then acc else Reduce(lines[1..], acc + lines[0].total)
  }

  /** The left fold over the resolved lines adds up to the reference amount. */
  lemma {:induction false} ReduceIsCartTotal(items: seq<CartItem>, catalog: map<ProductId, Product>, acc: int)
    requires AllInCatalog(items, catalog)
    ensures Reduce(Lines(items, catalog), acc) == acc + CartTotal(items, catalog)
  {
    if items != [] {
      var lines := Lines(items, catalog);
      assert lines[1..] == Lines(items[1..], catalog);
      ReduceIsCartTotal(items[1..], catalog, acc + lines[0].total);
    }
  }

  /** `GET /cart`: an absent or empty cart is an explicit empty answer, not an error;
      a line whose product has left the catalog makes the handler throw (500);
      otherwise one view line per cart line, in order, and their sum. */
  function ViewCart(cart: Option<Cart>, catalog: map<ProductId, Product>): (r: Response<CartView>)
    ensures (cart.None? || cart.value.items == []) ==> r == Ok(200, EmptyCart)
    ensures r.Err? <==> cart.Some? && cart.value.items != [] && !AllInCatalog(cart.value.items, catalog)
    ensures r.Err? ==> r.status == 500
    ensures r.Ok? && cart.Some? && cart.value.items != [] ==>
              var items := cart.value.items;
              && r.status == 200 && r.value.Details?
              && r.value.lines == Lines(items, catalog)
              && |r.value.lines| == |items|
              && (forall k :: 0 <= k < |items| ==>
                    && r.value.lines[k].quantity == items[k].quantity
                    && r.value.lines[k].price == catalog[items[k].product].price
                    && r.value.lines[k].total == items[k].quantity * catalog[items[k].product].price)
              && r.value.totalAmount == CartTotal(items, catalog)
  {
    if cart.None? || cart.value.items == [] then Ok(200, EmptyCart)
    else if !AllInCatalog(cart.value.items, catalog) then Err(500)
    else
      var lines := Lines(cart.value.items, catalog);
      ReduceIsCartTotal(cart.value.items, catalog, 0);
      Ok(200, Details(lines, Reduce(lines, 0)))
  }

  lemma {:induction false} CartTotalAppend(items: seq<CartItem>, x: CartItem, catalog: map<ProductId, Product>)
    requires AllInCatalog(items, catalog) && x.product in catalog
    ensures AllInCatalog(items + [x], catalog)
    ensures CartTotal(items + [x], catalog) == CartTotal(items, catalog) + x.quantity * catalog[x.product].price
  {
    if items != [] {
      assert (items + [x])[1..] == items[1..] + [x];
      CartTotalAppend(items[1..], x, catalog);
    }
  }

  lemma {:induction false} CartTotalReplace(items: seq<CartItem>, i: int, x: CartItem, catalog: map<ProductId, Product>)
    requires AllInCatalog(items, catalog) && x.product in catalog && 0 <= i < |items|
    ensures AllInCatalog(items[i := x], catalog)
    ensures CartTotal(items[i := x], catalog)
            == CartTotal(items, catalog) - items[i].quantity * catalog[items[i].product].price
               + x.quantity * catalog[x.product].price
  {
    if i > 0 {
      assert items[i := x][1..] == items[1..][i - 1 := x];
      CartTotalReplace(items[1..], i - 1, x, catalog);
    } else {
      assert items[i := x][1..] == items[1..];
    }
  }

  lemma Distribute(a: int, q: int, price: int)
    ensures (a + q) * price == a * price + q * price
  {
  }

  /** Adding q of a catalogued product raises the cart's amount by q times its price. */
  lemma AddItemTotal(items: seq<CartItem>, p: ProductId, q: int, catalog: map<ProductId, Product>)
    requires AllInCatalog(items, catalog) && p in catalog
    ensures AllInCatalog(AddItem(items, p, q), catalog)
    ensures CartTotal(AddItem(items, p, q), catalog) == CartTotal(items, catalog) + q * catalog[p].price
  {
    var i := FindIndex(items, p);
    if i >= 0 {
      var x := CartItem(p, items[i].quantity + q);
      CartTotalReplace(items, i, x, catalog);
      Distribute(items[i].quantity, q, catalog[p].price);
    } else {
      CartTotalAppend(items, CartItem(p, q), catalog);
    }
  }
}
