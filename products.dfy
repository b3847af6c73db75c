/** The catalog logic of the product handlers (routes/products.js): body validation,
    the key-by-key field merge of an update, and the filtered, paginated listing. */
module ProductLogic {
  import opened Models
  import opened Paging

  /** What the validators of routes/products.js:8-9 and 31-32 accept of a stored product:
      a non-empty name and a positive price. */
  predicate ProductOk(p: Product) {
    p.name != "" && p.price > 0
  }

  /** One key of an update body with its value. */
  datatype Field =
    | Name(name: string)
    | Description(description: string)
    | Price(price: int)
    | Category(category: string)

  datatype FieldKey = NameKey | DescriptionKey | PriceKey | CategoryKey

  function KeyOf(f: Field): (r: FieldKey) {
    match f
    case Name(_) => NameKey
    case Description(_) => DescriptionKey
    case Price(_) => PriceKey
    case Category(_) => CategoryKey
  }

  /** The keys of a JSON body are distinct. */
  predicate DistinctKeys(fs: seq<Field>) {
    forall i, j :: 0 <= i < j < |fs| ==> KeyOf(fs[i]) != KeyOf(fs[j])
  }

  /** `check('name').optional().notEmpty()` and `check('price').optional().isFloat({gt: 0})`:
      a key that is present must carry an acceptable value. */
  predicate FieldOk(f: Field) {
    match f
    case Name(n) => n != ""
    case Price(x) => x > 0
    case _ => true
  }

  predicate UpdateOk(fs: seq<Field>) {
    forall k :: 0 <= k < |fs| ==> FieldOk(fs[k])
  }

  /** `product[key] = updates[key]` for one key. */
  function Assign(p: Product, f: Field): (r: Product) {
    match f
    case Name(n) => p.(name := n)
    case Description(d) => p.(description := Some(d))
    case Price(x) => p.(price := x)
    case Category(c) => p.(category := Some(c))
  }

  /** The effect of the `forEach` over the body's keys, in order. */
  function ApplyFields(p: Product, fs: seq<Field>): (r: Product)
    decreases |fs|
  {
    if fs == [] then p else Assign(ApplyFields(p, fs[..|fs| - 1]), fs[|fs| - 1])
  }

  /** The forEach over the body's keys, assigning each to the product in turn
      (routes/products.js:50-52). */
  method ApplyUpdates(p: Product, fs: seq<Field>) returns (q: Product)
    ensures q == ApplyFields(p, fs)
  {
    q := p;
    var i := 0;
    while i < |fs|
      invariant 0 <= i <= |fs|
      invariant q == ApplyFields(p, fs[..i])
    {
      assert fs[..i + 1][..i] == fs[..i];
      q := Assign(q, fs[i]);
      i := i + 1;
    }
    assert fs[..|fs|] == fs;
  }

  /** The product holds the value the field gives its key. */
  predicate Carries(p: Product, f: Field) {
    match f
    case Name(n) => p.name == n
    case Description(d) => p.description == Some(d)
    case Price(x) => p.price == x
    case Category(c) => p.category == Some(c)
  }

  /** The two products agree on the field named by key. */
  predicate SameAt(a: Product, b: Product, key: FieldKey) {
    match key
    case NameKey => a.name == b.name
    case DescriptionKey => a.description == b.description
    case PriceKey => a.price == b.price
    case CategoryKey => a.category == b.category
  }

  /** Every key the body provides ends up with the body's value. */
  lemma {:induction false} ApplyFieldsProvided(p: Product, fs: seq<Field>, k: int)
    requires DistinctKeys(fs) && 0 <= k < |fs|
    ensures Carries(ApplyFields(p, fs), fs[k])
  {
    var init := fs[..|fs| - 1];
    if k < |fs| - 1 {
      assert init[k] == fs[k];
      assert DistinctKeys(init) by {
        assert forall i :: 0 <= i < |init| ==> init[i] == fs[i];
      }
      ApplyFieldsProvided(p, init, k);
      assert KeyOf(fs[k]) != KeyOf(fs[|fs| - 1]);
    }
  }

  /** Every key the body does not provide keeps its old value. */
  lemma {:induction false} ApplyFieldsUntouched(p: Product, fs: seq<Field>, key: FieldKey)
    requires forall k :: 0 <= k < |fs| ==> KeyOf(fs[k]) != key
    ensures SameAt(ApplyFields(p, fs), p, key)
    decreases |fs|
  {
    if fs != [] {
      var init := fs[..|fs| - 1];
      assert forall i :: 0 <= i < |init| ==> init[i] == fs[i];
      ApplyFieldsUntouched(p, init, key);
    }
  }

  /** An accepted update keeps a valid product valid. */
  lemma {:induction false} ApplyFieldsKeepsOk(p: Product, fs: seq<Field>)
    requires ProductOk(p) && UpdateOk(fs)
    ensures ProductOk(ApplyFields(p, fs))
    decreases |fs|
  {
    if fs != [] {
      var init := fs[..|fs| - 1];
      assert UpdateOk(init) by {
        assert forall i :: 0 <= i < |init| ==> init[i] == fs[i];
      }
      ApplyFieldsKeepsOk(p, init);
      assert FieldOk(fs[|fs| - 1]);
    }
  }

  // ---- Product ids in the database's natural (insertion) order ----

  /** No id twice. `Models.Unique` says the same of cart lines, keyed by their product,
      and `DistinctListed` of listed entries, keyed by their id: each is stated over its own
      element type, so that its quantifier triggers on that sequence's elements. */
  predicate Distinct(ids: seq<ProductId>) {
    forall i, j :: 0 <= i < j < |ids| ==> ids[i] != ids[j]
  }

  /** The id list without `id`, order kept. */
  function RemoveId(ids: seq<ProductId>, id: ProductId): (r: seq<ProductId>)
    ensures forall x :: x in r <==> x in ids && x != id
    ensures Distinct(ids) ==> Distinct(r)
  {
    if ids == [] then []
    else
      var rest := RemoveId(ids[1..], id);
      assert forall x :: x in ids <==> x == ids[0] || x in ids[1..] by {
        assert ids == [ids[0]] + ids[1..];
      }
      if ids[0] == id then rest
      else
        if Distinct(ids) then
          assert Distinct(ids[1..]) by {
            assert forall i :: 0 <= i < |ids| - 1 ==> ids[1..][i] == ids[i + 1];
          }
          assert ids[0] !in rest;
          [ids[0]] + rest
        else
          [ids[0]] + rest
  }

  // ---- Listing (routes/products.js:82-95) ----

  /** A listed product with its id. */
  datatype Listed = Listed(id: ProductId, product: Product)

  /** `{products, totalPages, currentPage}`; `totalPages` is None where `Math.ceil`
      yields Infinity or NaN (a zero limit), which JSON renders as null. */
  datatype ProductPage = ProductPage(products: seq<Listed>, totalPages: Option<int>, currentPage: int)

  /** `category ? { category } : {}`: an absent or empty category filters nothing. */
  predicate Matches(p: Product, category: Option<string>) {
    category == None || category == Some("") || p.category == category
  }

  /** Every id of the list names a product of the catalog; `CartLogic.AllInCatalog` is
      the same check over cart lines. */
  predicate InCatalog(ids: seq<ProductId>, catalog: map<ProductId, Product>) {
    forall i :: 0 <= i < |ids| ==> ids[i] in catalog
  }

  lemma InCatalogCons(ids: seq<ProductId>, catalog: map<ProductId, Product>)
    requires ids != [] && InCatalog(ids, catalog)
    ensures ids[0] in catalog && InCatalog(ids[1..], catalog)
  {
  }

  lemma InCatalogAppend(a: seq<ProductId>, b: seq<ProductId>, catalog: map<ProductId, Product>)
    requires InCatalog(a, catalog) && InCatalog(b, catalog)
    ensures InCatalog(a + b, catalog)
  {
    assert forall i :: |a| <= i < |a + b| ==> (a + b)[i] == b[i - |a|];
  }

  /** `Product.find(query)` in natural order. */
  function Matching(ids: seq<ProductId>, catalog: map<ProductId, Product>, category: Option<string>): (r: seq<Listed>)
    requires InCatalog(ids, catalog)
    ensures |r| <= |ids|
  {
    if ids == [] then []
    else
      InCatalogCons(ids, catalog);
      var rest := Matching(ids[1..], catalog, category);
      if Matches(catalog[ids[0]], category) then [Listed(ids[0], catalog[ids[0]])] + rest else rest
  }

  /** Listing an id followed by others lists that id (when it matches), then the others. */
  lemma MatchingCons(ids: seq<ProductId>, catalog: map<ProductId, Product>, category: Option<string>)
    requires ids != [] && InCatalog(ids, catalog)
    ensures ids[0] in catalog && InCatalog(ids[1..], catalog)
    ensures Matching(ids, catalog, category)
            == (if Matches(catalog[ids[0]], category) then [Listed(ids[0], catalog[ids[0]])] else [])
               + Matching(ids[1..], catalog, category)
  {
    InCatalogCons(ids, catalog);
  }

  /** Every entry is a product of ids, with its current fields, that matches the category. */
  predicate ListedFrom(r: seq<Listed>, ids: seq<ProductId>, catalog: map<ProductId, Product>, category: Option<string>) {
    forall k :: 0 <= k < |r| ==>
      r[k].id in ids && r[k].id in catalog && r[k].product == catalog[r[k].id] && Matches(r[k].product, category)
  }

  /** Every product of ids that matches the category is listed, with its current fields. */
  predicate ListsAll(r: seq<Listed>, ids: seq<ProductId>, catalog: map<ProductId, Product>, category: Option<string>) {
    forall i :: 0 <= i < |ids| && ids[i] in catalog && Matches(catalog[ids[i]], category) ==>
      Listed(ids[i], catalog[ids[i]]) in r
  }

  /** No product is listed twice. */
  predicate DistinctListed(r: seq<Listed>) {
    forall i, j :: 0 <= i < j < |r| ==> r[i].id != r[j].id
  }

  /** The query lists only products of ids that match, each with its current fields. */
  lemma {:induction false} MatchingSound(ids: seq<ProductId>, catalog: map<ProductId, Product>, category: Option<string>)
    requires InCatalog(ids, catalog)
    ensures ListedFrom(Matching(ids, catalog, category), ids, catalog, category)
  {
    if ids != [] {
      MatchingCons(ids, catalog, category);
      var tail := ids[1..];
      MatchingSound(tail, catalog, category);
      var rest := Matching(tail, catalog, category);
      var r := Matching(ids, catalog, category);
      assert forall x :: x in tail ==> x in ids;
      forall k | 0 <= k < |r|
        ensures r[k].id in ids && r[k].id in catalog && r[k].product == catalog[r[k].id] && Matches(r[k].product, category)
      {
        if |r| > |rest| && k > 0 {
          assert r[k] == rest[k - 1];
        } else if |r| == |rest| {
          assert r[k] == rest[k];
        }
      }
    }
  }

  /** The query lists every product of ids that matches, with its current fields. */
  lemma {:induction false} MatchingComplete(ids: seq<ProductId>, catalog: map<ProductId, Product>, category: Option<string>)
    requires InCatalog(ids, catalog)
    ensures ListsAll(Matching(ids, catalog, category), ids, catalog, category)
  {
    if ids != [] {
      MatchingCons(ids, catalog, category);
      var tail := ids[1..];
      MatchingComplete(tail, catalog, category);
      var rest := Matching(tail, catalog, category);
      var r := Matching(ids, catalog, category);
      assert forall x :: x in rest ==> x in r;
      forall i | 0 <= i < |ids| && ids[i] in catalog && Matches(catalog[ids[i]], category)
        ensures Listed(ids[i], catalog[ids[i]]) in r
      {
        if i > 0 {
          assert ids[i] == tail[i - 1];
        }
      }
    }
  }

  /** Over distinct ids the query lists no product twice. */
  lemma {:induction false} MatchingDistinct(ids: seq<ProductId>, catalog: map<ProductId, Product>, category: Option<string>)
    requires InCatalog(ids, catalog) && Distinct(ids)
    ensures DistinctListed(Matching(ids, catalog, category))
  {
    if ids != [] {
      MatchingCons(ids, catalog, category);
      var tail := ids[1..];
      assert Distinct(tail) by {
        assert forall i :: 0 <= i < |tail| ==> tail[i] == ids[i + 1];
      }
      MatchingDistinct(tail, catalog, category);
      MatchingSound(tail, catalog, category);
      var rest := Matching(tail, catalog, category);
      if Matches(catalog[ids[0]], category) {
        var r := Matching(ids, catalog, category);
        assert forall k :: 1 <= k < |r| ==> r[k] == rest[k - 1];
        forall k | 0 <= k < |rest| ensures rest[k].id != ids[0] {
          assert rest[k].id in tail;
          var j :| 0 <= j < |tail| && tail[j] == rest[k].id;
          assert tail[j] == ids[j + 1];
        }
      }
    }
  }

  /** The filter keeps the natural order: listing a concatenation lists each part in turn. */
  lemma {:induction false} MatchingAppend(a: seq<ProductId>, b: seq<ProductId>, catalog: map<ProductId, Product>, category: Option<string>)
    requires InCatalog(a, catalog) && InCatalog(b, catalog)
    ensures InCatalog(a + b, catalog)
    ensures Matching(a + b, catalog, category) == Matching(a, catalog, category) + Matching(b, catalog, category)
  {
    InCatalogAppend(a, b, catalog);
    if a == [] {
      assert a + b == b;
    } else {
      assert (a + b)[1..] == a[1..] + b;
      MatchingCons(a, catalog, category);
      MatchingAppend(a[1..], b, catalog, category);
      MatchingCons(a + b, catalog, category);
    }
  }

  /** With no usable category, the listing covers the whole catalog in natural order. */
  lemma {:induction false} MatchingAll(ids: seq<ProductId>, catalog: map<ProductId, Product>, category: Option<string>)
    requires InCatalog(ids, catalog)
    requires category == None || category == Some("")
    ensures |Matching(ids, catalog, category)| == |ids|
    ensures forall k :: 0 <= k < |ids| ==> Matching(ids, catalog, category)[k] == Listed(ids[k], catalog[ids[k]])
  {
    if ids != [] {
      MatchingCons(ids, catalog, category);
      MatchingAll(ids[1..], catalog, category);
    }
  }

  /** The ids of a catalog that match a category. */
  function MatchingIds(ids: seq<ProductId>, catalog: map<ProductId, Product>, category: Option<string>): (s: set<ProductId>)
    ensures forall id :: id in s <==> id in ids && id in catalog && Matches(catalog[id], category)
  {
    set id | id in ids && id in catalog && Matches(catalog[id], category)
  }

  /** Taking the first id off a list without repeats takes it out of the matching set. */
  lemma MatchingIdsCons(ids: seq<ProductId>, catalog: map<ProductId, Product>, category: Option<string>)
    requires ids != [] && ids[0] !in ids[1..]
    ensures |MatchingIds(ids, catalog, category)|
            == (if ids[0] in catalog && Matches(catalog[ids[0]], category) then 1 else 0)
               + |MatchingIds(ids[1..], catalog, category)|
  {
    var s, t := MatchingIds(ids, catalog, category), MatchingIds(ids[1..], catalog, category);
    assert forall x :: x in ids <==> x == ids[0] || x in ids[1..] by {
      assert ids == [ids[0]] + ids[1..];
    }
    assert ids[0] !in t;
    if ids[0] in catalog && Matches(catalog[ids[0]], category) {
      assert s == t + {ids[0]};
    } else {
      assert s == t;
    }
  }

  /** Over distinct ids, the listing holds exactly as many entries as there are matching
      products: the count that `totalPages` divides. */
  lemma {:induction false} MatchingCount(ids: seq<ProductId>, catalog: map<ProductId, Product>, category: Option<string>)
    requires InCatalog(ids, catalog)
    ensures Distinct(ids) ==> |Matching(ids, catalog, category)| == |MatchingIds(ids, catalog, category)|
  {
    if !Distinct(ids) {
    } else if ids == [] {
      assert MatchingIds(ids, catalog, category) == {};
    } else {
      var tail := ids[1..];
      MatchingCons(ids, catalog, category);
      assert Distinct(tail) && ids[0] !in tail by {
        assert forall i :: 0 <= i < |tail| ==> tail[i] == ids[i + 1];
      }
      MatchingCount(tail, catalog, category);
      MatchingIdsCons(ids, catalog, category);
    }
  }

  /** `GET /products`: `page` and `limit` default to 1 and 10 only when absent (a zero
      limit reaches the database as "no limit"); the page is the window at
      `(page - 1) * limit` of the matching products; a negative skip fails (500). */
  function ListProducts(ids: seq<ProductId>, catalog: map<ProductId, Product>,
                        pageQ: Option<int>, limitQ: Option<int>, category: Option<string>): (r: Response<ProductPage>)
    requires InCatalog(ids, catalog)
    ensures var page, limit := pageQ.GetOr(1), limitQ.GetOr(10);
            && (r.Err? <==> (page - 1) * limit < 0)
            && (r.Err? ==> r.status == 500)
            && (r.Ok? ==>
                  var matching := Matching(ids, catalog, category);
                  && r.status == 200
                  && r.value.currentPage == page
                  && r.value.products == Window(matching, (page - 1) * limit, limit).value
                  && (forall x :: x in r.value.products ==> x in matching)
                  && ListedFrom(r.value.products, ids, catalog, category)
                  && (limit != 0 ==> |r.value.products| <= Abs(limit))
                  && (r.value.totalPages == None <==> limit == 0)
                  && (limit != 0 ==> r.value.totalPages == Some(CeilDiv(|matching|, limit)))
                  && (limit != 0 && Distinct(ids) ==>
                        r.value.totalPages == Some(CeilDiv(|MatchingIds(ids, catalog, category)|, limit))))
  {
    var page, limit := pageQ.GetOr(1), limitQ.GetOr(10);
    var matching := Matching(ids, catalog, category);
    MatchingSound(ids, catalog, category);
    MatchingCount(ids, catalog, category);
    match Window(matching, (page - 1) * limit, limit)
    case None => Err(500)
    case Some(w) =>
      assert forall x :: x in w ==> x in matching by {
        forall x | x in w ensures x in matching {
          var k :| 0 <= k < |w| && w[k] == x;
          assert w[k] == matching[(page - 1) * limit + k];
        }
      }
      Ok(200, ProductPage(w, if limit == 0 then None else Some(CeilDiv(|matching|, limit)), page))
  }
}
