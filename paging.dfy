/** The pagination arithmetic shared by the order and product listings: query defaults,
    the database's skip/limit window and `Math.ceil(total / limit)`. */
module Paging {
  import opened Models

  function Abs(x: int): (r: nat) {
    if x < 0 then -x else x
  }

  function Min(a: int, b: int): (r: int) {
    if a <= b then a else b
  }

  /** `parseInt(q) || d`: a missing, non-numeric (None) or zero value falls back to `d`;
      any other value, negative ones included, is kept. */
  function ParseOr(q: Option<int>, d: int): (r: int)
    ensures d != 0 ==> r != 0
    ensures (q == None || q == Some(0)) ==> r == d
    ensures q.Some? && q.value != 0 ==> r == q.value
  {
    match q
    case None => d
    case Some(v) => if v == 0 then d else v
  }

  /** `Math.ceil(n / d)` for a non-zero divisor, on exact integers. */
  function CeilDiv(n: int, d: int): (r: int)
    requires d != 0
    ensures d > 0 ==> (r - 1) * d < n <= r * d
    ensures d < 0 ==> r * d <= n < (r - 1) * d
  {
    if d > 0 then
      var q := (n + d - 1) / d;
      assert q * d + (n + d - 1) % d == n + d - 1;
      q
    else
      var e := -d;
      var q := (-n + e - 1) / e;
      assert q * e + (-n + e - 1) % e == -n + e - 1;
      q
  }

  /** The documents a query returns after `.skip(skip).limit(limit)`: a negative skip
      is rejected by the database (None); a zero limit means no limit; a negative limit
      returns at most its absolute value. */
  function Window<T>(xs: seq<T>, skip: int, limit: int): (r: Option<seq<T>>)
    ensures r.None? <==> skip < 0
    ensures r.Some? ==> |r.value| == if skip >= |xs| then 0
                                     else if limit == 0 then |xs| - skip
                                     else Min(|xs| - skip, Abs(limit))
    ensures r.Some? ==> forall k :: 0 <= k < |r.value| ==> skip + k < |xs| && r.value[k] == xs[skip + k]
  {
    if skip < 0 then None
    else if skip >= |xs| then Some([])
    else
      var n := if limit == 0 then |xs| - skip else Min(|xs| - skip, Abs(limit));
      Some(xs[skip..skip + n])
  }

  lemma MulMonotone(a: int, b: int, d: int)
    requires a <= b && d > 0
    ensures a * d <= b * d
  {
    assert b * d - a * d == (b - a) * d;
  }

  /** With a positive page size the reported page count is exactly the number of
      non-empty pages: page p (from 1) holds documents iff p <= ceil(n / limit). */
  lemma TotalPagesCountsNonEmptyPages<T>(xs: seq<T>, page: int, limit: int)
    requires page >= 1 && limit > 0
    ensures Window(xs, (page - 1) * limit, limit).Some?
    ensures Window(xs, (page - 1) * limit, limit).value != [] <==> page <= CeilDiv(|xs|, limit)
  {
    // The products bounding the page's skip, spelled out to keep the nonlinear step small.
    var total := CeilDiv(|xs|, limit);
    MulMonotone(0, page - 1, limit);
    if page <= total {
      MulMonotone(page - 1, total - 1, limit);
    } else {
      MulMonotone(total, page - 1, limit);
    }
  }

  /** Consecutive pages tile the list: document k is entry k % limit of page k / limit + 1,
      and that page is within the reported page count. */
  lemma EveryDocumentOnItsPage<T>(xs: seq<T>, limit: int, k: int)
    requires limit > 0 && 0 <= k < |xs|
    ensures var page := k / limit + 1;
            && page <= CeilDiv(|xs|, limit)
            && Window(xs, (page - 1) * limit, limit).Some?
            && k % limit < |Window(xs, (page - 1) * limit, limit).value|
            && Window(xs, (page - 1) * limit, limit).value[k % limit] == xs[k]
  {
    var page := k / limit + 1;
    assert (page - 1) * limit + k % limit == k;
    MulMonotone(0, page - 1, limit);
    TotalPagesCountsNonEmptyPages(xs, page, limit);
  }
}
