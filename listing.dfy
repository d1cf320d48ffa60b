/** The listing arithmetic shared by `getAllCategories`,
    `getAllSubcategories`, `getAllProjects`, `getUsers` and `getClients`:
    `limit = req.query.limit * 1 || setLimit`, `page = req.query.page * 1 || 1`,
    `skip = (page - 1) * limit`, `totalPages = Math.ceil(count / limit)`, the
    name filter built from `req.query.key`, and the `m` flag that selects the
    "added"/"deleted" message. `count` is `countDocuments()` of the whole
    collection, whatever the filter. */
module Listing {
  import opened Js

  /** The query-string values a listing reads. `limit` and `page` are the
      results of `* 1`: None for an absent or non-numeric value (NaN). */
  datatype ListQuery = ListQuery(key: Option<string>, limit: Option<int>, page: Option<int>, m: Option<string>)

  /** The numbers a listing computes. */
  datatype Page = Page(limit: int, page: int, skip: int, totalPages: int)

  /** `x || d` for a number `x` that may be NaN: falsy for NaN and 0. */
  function OrDefault(q: Option<int>, d: int): (r: int)
    ensures q.None? || q == Some(0) ==> r == d
    ensures q.Some? && q.value != 0 ==> r == q.value
    ensures d != 0 ==> r != 0
  {
    match q
    case None => d
    case Some(v) => if v != 0 then v else d
  }

  /** `Math.ceil(a / b)` for a non-zero integer divisor. */
  function CeilDiv(a: int, b: int): (r: int)
    requires b != 0
    ensures b > 0 ==> (r - 1) * b < a <= r * b
    ensures b < 0 ==> r * b <= a < (r - 1) * b
  {
    if b > 0 then -((-a) / b) else a / b
  }

  /** The listing arithmetic for a collection of `count` documents. */
  function Paginate(limitQ: Option<int>, pageQ: Option<int>, count: nat, setLimit: int): (p: Page)
    requires setLimit > 0
    ensures p.limit != 0 && p.page != 0
    ensures p.limit == (if limitQ.None? || limitQ == Some(0) then setLimit else limitQ.value)
    ensures p.page == (if pageQ.None? || pageQ == Some(0) then 1 else pageQ.value)
    ensures p.skip == (p.page - 1) * p.limit
    ensures p.limit > 0 ==> (p.totalPages - 1) * p.limit < count <= p.totalPages * p.limit
  {
    var limit := OrDefault(limitQ, setLimit);
    var page := OrDefault(pageQ, 1);
    Page(limit, page, (page - 1) * limit, CeilDiv(count, limit))
  }

  /** With a positive limit the pages partition the collection: document
      `i` (in sort order) lies on exactly one page `q` between 1 and
      `totalPages`, the one whose window `skip .. skip + limit` contains it. */
  lemma EveryDocumentOnOnePage(limitQ: Option<int>, pageQ: Option<int>, count: nat, setLimit: int, i: nat)
    requires setLimit > 0 && i < count
    requires Paginate(limitQ, pageQ, count, setLimit).limit > 0
    ensures var p := Paginate(limitQ, pageQ, count, setLimit);
      var q := i / p.limit + 1;
      && 1 <= q <= p.totalPages
      && (q - 1) * p.limit <= i < q * p.limit
      && (forall q' :: 1 <= q' && (q' - 1) * p.limit <= i < q' * p.limit ==> q' == q)
  {
    var p := Paginate(limitQ, pageQ, count, setLimit);
    PageOfIndex(p.limit, p.totalPages, count, i);
  }

  lemma PageOfIndex(l: int, total: int, count: nat, i: nat)
    requires l > 0 && i < count && count <= total * l
    ensures var q := i / l + 1;
      && 1 <= q <= total
      && (q - 1) * l <= i < q * l
      && (forall q' :: 1 <= q' && (q' - 1) * l <= i < q' * l ==> q' == q)
  {
    var q := i / l + 1;
    DivBounds(i, l);
    assert (q - 1) * l <= i < q * l;
    if q > total {
      MulMonotone(total, q - 1, l);
    }
    forall q' | 1 <= q' && (q' - 1) * l <= i < q' * l
      ensures q' == q
    {
      if q' < q {
        MulMonotone(q', q - 1, l);
      } else if q' > q {
        MulMonotone(q, q' - 1, l);
      }
    }
  }

  lemma DivBounds(i: nat, l: int)
    requires l > 0
    ensures (i / l) * l <= i < (i / l + 1) * l
  {
    assert i == (i / l) * l + i % l;
    assert (i / l + 1) * l == (i / l) * l + l;
  }

  lemma MulMonotone(a: int, b: int, l: int)
    requires a <= b && l > 0
    ensures a * l <= b * l
  {
  }

  /** The empty collection has no pages; any other has at least one. */
  lemma TotalPagesZeroIffEmpty(limitQ: Option<int>, pageQ: Option<int>, count: nat, setLimit: int)
    requires setLimit > 0 && Paginate(limitQ, pageQ, count, setLimit).limit > 0
    ensures Paginate(limitQ, pageQ, count, setLimit).totalPages == 0 <==> count == 0
    ensures Paginate(limitQ, pageQ, count, setLimit).totalPages >= 0
  {
  }

  /** The message selected by the `m` query flag: `'1'` after an insert,
      `'2'` after a delete, and the empty string otherwise (including an
      absent or empty flag, which the `if (req.query.m)` guard skips). */
  function FlashMessage(m: Option<string>, noun: string): (r: string)
    ensures r == noun + " added" <==> m == Some("1")
    ensures r == noun + " deleted" <==> m == Some("2")
    ensures r == "" <==> m != Some("1") && m != Some("2")
  {
    if Truthy(m) then
      if m.value == "1" then noun + " added"
      else if m.value == "2" then noun + " deleted"
      else ""
    else ""
  }

  /** `filterData.name = { $regex: new RegExp(key, 'i') }` when `key` is
      truthy, no name condition otherwise. */
  datatype NameFilter = AnyName | NameLike(pattern: string)

  function KeyFilter(key: Option<string>): (f: NameFilter)
    ensures f.NameLike? <==> Truthy(key)
    ensures f.NameLike? ==> f.pattern == key.value
  {
    if Truthy(key) then NameLike(key.value) else AnyName
  }

  /** Whether a document name passes the name condition; `regexMatches`
      stands for case-insensitive regular-expression search. */
  predicate NamePasses(f: NameFilter, regexMatches: (string, string) -> bool, name: string) {
    match f
    case AnyName => true
    case NameLike(p) => regexMatches(p, name)
  }
}
