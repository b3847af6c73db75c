/** The query logic of the order listings (routes/orders.js): a customer's orders,
    newest first, cut into pages. */
module OrderLogic {
  import opened Models
  import opened Paging

  /** `Order.find({customerId: c})`: the orders of c, in stored order. */
  function OrdersOf(os: seq<Order>, c: CustomerId): (r: seq<Order>)
    ensures forall k :: 0 <= k < |r| ==> r[k].customerId == c
    ensures forall o :: o in r <==> o in os && o.customerId == c
    ensures multiset(r) <= multiset(os)
  {
    if os == [] then []
    else
      var rest := OrdersOf(os[1..], c);
      assert os == [os[0]] + os[1..];
      if os[0].customerId == c then [os[0]] + rest else rest
  }

  /** Sorted by `orderDate` descending. */
  predicate NewestFirst(os: seq<Order>) {
    forall i, j :: 0 <= i < j < |os| ==> os[i].orderDate >= os[j].orderDate
  }

  /** Inserts o before the first order that is not newer than it. */
  function InsertByDate(o: Order, os: seq<Order>): (r: seq<Order>)
    ensures multiset(r) == multiset(os) + multiset{o}
  {
    if os == [] || o.orderDate >= os[0].orderDate then [o] + os
    else
      assert os == [os[0]] + os[1..];
      [os[0]] + InsertByDate(o, os[1..])
  }

  lemma {:induction false} InsertKeepsNewestFirst(o: Order, os: seq<Order>)
    requires NewestFirst(os)
    ensures NewestFirst(InsertByDate(o, os))
  {
    if os != [] && o.orderDate < os[0].orderDate {
      var tail := os[1..];
      assert NewestFirst(tail) by {
        assert forall k :: 0 <= k < |tail| ==> tail[k] == os[k + 1];
      }
      InsertKeepsNewestFirst(o, tail);
      var rest := InsertByDate(o, tail);
      forall k | 0 <= k < |rest| ensures os[0].orderDate >= rest[k].orderDate {
        assert rest[k] in multiset(rest);
        assert rest[k] == o || rest[k] in multiset(tail);
        if rest[k] != o {
          var j :| 0 <= j < |tail| && tail[j] == rest[k];
          assert tail[j] == os[j + 1];
        }
      }
      assert InsertByDate(o, os) == [os[0]] + rest;
    }
  }

  /** `.sort({orderDate: -1})`: a newest-first permutation of the orders. Orders with the
      same date come out in one fixed order; the database promises none. */
  function SortNewestFirst(os: seq<Order>): (r: seq<Order>)
    ensures NewestFirst(r)
    ensures multiset(r) == multiset(os)
  {
    if os == [] then []
    else
      assert os == [os[0]] + os[1..];
      InsertKeepsNewestFirst(os[0], SortNewestFirst(os[1..]));
      InsertByDate(os[0], SortNewestFirst(os[1..]))
  }

  /** A window of a newest-first list is newest first and holds only its elements. */
  lemma WindowOfSorted(xs: seq<Order>, skip: int, limit: int)
    requires NewestFirst(xs) && skip >= 0
    ensures NewestFirst(Window(xs, skip, limit).value)
    ensures forall o :: o in Window(xs, skip, limit).value ==> o in xs
  {
    var w := Window(xs, skip, limit).value;
    forall i, j | 0 <= i < j < |w| ensures w[i].orderDate >= w[j].orderDate {
      assert w[i] == xs[skip + i] && w[j] == xs[skip + j];
    }
    forall o | o in w ensures o in xs {
      var k :| 0 <= k < |w| && w[k] == o;
      assert w[k] == xs[skip + k];
    }
  }

  /** Sorting keeps exactly the same orders. */
  lemma SortKeepsMembers(os: seq<Order>)
    ensures forall o :: o in SortNewestFirst(os) <==> o in os
  {
    var s := SortNewestFirst(os);
    forall o ensures o in s <==> o in os {
      assert o in s <==> o in multiset(s);
      assert o in os <==> o in multiset(os);
    }
  }

  /** The JSON body of a listing: `{orders, currentPage, totalPages, totalOrders}`. */
  datatype OrderPage = OrderPage(orders: seq<Order>, currentPage: int, totalPages: int, totalOrders: int)

  /** A customer's listing, as both listing handlers compute it (routes/orders.js:65-82
      and 102-120): `page` and `limit` default through `parseInt(x) || d`; the page is
      the window at `(page - 1) * limit` of the newest-first orders; a negative skip
      makes the database query fail (500). */
  function ListOrders(os: seq<Order>, c: CustomerId, pageQ: Option<int>, limitQ: Option<int>): (r: Response<OrderPage>)
    ensures var page, limit := ParseOr(pageQ, 1), ParseOr(limitQ, 10);
            && (r.Err? <==> (page - 1) * limit < 0)
            && (r.Err? ==> r.status == 500)
            && (r.Ok? ==>
                  && r.status == 200
                  && r.value.currentPage == page
                  && r.value.orders == Window(SortNewestFirst(OrdersOf(os, c)), (page - 1) * limit, limit).value
                  && r.value.totalOrders == |OrdersOf(os, c)|
                  && r.value.totalPages == CeilDiv(|OrdersOf(os, c)|, limit)
                  && |r.value.orders| <= Abs(limit)
                  && NewestFirst(r.value.orders)
                  && (forall o :: o in r.value.orders ==> o in os && o.customerId == c)
                  && ((page - 1) * limit >= |OrdersOf(os, c)| ==> r.value.orders == []))
  {
    var page, limit := ParseOr(pageQ, 1), ParseOr(limitQ, 10);
    var mine := SortNewestFirst(OrdersOf(os, c));
    SortKeepsMembers(OrdersOf(os, c));
    match Window(mine, (page - 1) * limit, limit)
    case None => Err(500)
    case Some(w) =>
      WindowOfSorted(mine, (page - 1) * limit, limit);
      Ok(200, OrderPage(w, page, CeilDiv(|mine|, limit), |mine|))
  }
}
