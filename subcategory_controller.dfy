/** `subcategoryController`: the filter, listing arithmetic and message of
    `getAllSubcategories`, and the `moveSubcategory` handler, which follows
    the same reordering steps as `moveCategory` on the subcategories. */
module SubcategoryController {
  import opened Js
  import opened Express
  import opened Reorder
  import opened Listing

  const SetLimit := 20

  /** The part of a subcategory document the filter looks at. */
  datatype Subcategory = Subcategory(id: string, name: string, category: string)

  /** `filterData`: a name condition from `key` and an equality on
      `category`, each present only when its query value is truthy. */
  datatype SubcategoryFilter = SubcategoryFilter(name: NameFilter, category: Option<string>)

  function BuildFilter(key: Option<string>, category: Option<string>): (f: SubcategoryFilter)
    ensures f.name.NameLike? <==> Truthy(key)
    ensures f.category.Some? <==> Truthy(category)
    ensures f.name.NameLike? ==> key == Some(f.name.pattern)
    ensures f.category.Some? ==> category == f.category
  {
    SubcategoryFilter(KeyFilter(key), if Truthy(category) then category else None)
  }

  /** A Mongo filter document matches when every condition in it holds. */
  predicate Selects(f: SubcategoryFilter, regexMatches: (string, string) -> bool, s: Subcategory) {
    NamePasses(f.name, regexMatches, s.name) && (f.category.Some? ==> s.category == f.category.value)
  }

  /** The two query values combine conjunctively, and each one that is
      absent or empty imposes nothing. */
  lemma FilterIsConjunction(key: Option<string>, category: Option<string>, regexMatches: (string, string) -> bool, s: Subcategory)
    ensures Selects(BuildFilter(key, category), regexMatches, s) <==>
      (Selects(BuildFilter(key, None), regexMatches, s) && Selects(BuildFilter(None, category), regexMatches, s))
    ensures !Truthy(key) && !Truthy(category) ==> Selects(BuildFilter(key, category), regexMatches, s)
    ensures Truthy(category) && s.category != category.value ==> !Selects(BuildFilter(key, category), regexMatches, s)
  {
  }

  /** What `getAllSubcategories` computes before querying; `queryKey` and
      `queryCat` are echoed to the view. */
  datatype SubcategoryListing = SubcategoryListing(
    filter: SubcategoryFilter, page: Page, message: string, queryKey: string, queryCat: string)

  function ListSubcategories(q: ListQuery, category: Option<string>, count: nat): (r: SubcategoryListing)
    ensures r.filter == BuildFilter(q.key, category)
    ensures r.queryKey == (if Truthy(q.key) then q.key.value else "")
    ensures r.queryCat == (if Truthy(category) then category.value else "")
    ensures q.limit.None? || q.limit == Some(0) ==> r.page.limit == SetLimit
    ensures q.page.None? || q.page == Some(0) ==> r.page.page == 1 && r.page.skip == 0
    ensures r.page.skip == (r.page.page - 1) * r.page.limit
    ensures r.page.limit > 0 ==> (r.page.totalPages - 1) * r.page.limit < count <= r.page.totalPages * r.page.limit
    ensures r.message == "Subcategory added" <==> q.m == Some("1")
    ensures r.message == "Subcategory deleted" <==> q.m == Some("2")
    ensures r.message == "" <==> q.m != Some("1") && q.m != Some("2")
  {
    SubcategoryListing(
      BuildFilter(q.key, category),
      Paginate(q.limit, q.page, count, SetLimit),
      FlashMessage(q.m, "Subcategory"),
      if Truthy(q.key) then q.key.value else "",
      if Truthy(category) then category.value else "")
  }

  /** `moveSubcategory` with `req.body = { subcategoryId, direction }`;
      `loaded` is `Subcategory.find().sort({ order: 1 })`. */
  method MoveSubcategory(ex: Exchange, store: OrderedCollection, loaded: array<Item>, subcategoryId: string, direction: string)
    requires ex.reply.None? && Lists(loaded[..], store.orders)
    modifies ex, store, loaded
    ensures ex.nexts == old(ex.nexts) && ex.cookies == old(ex.cookies) && ex.locals == old(ex.locals)
    ensures subcategoryId !in old(store.orders) ==>
      ex.reply == Some(Reply(404, Note("Subcategory not found"))) && store.orders == old(store.orders)
    ensures subcategoryId in old(store.orders) ==>
      var k := IndexOfId(old(loaded[..]), subcategoryId);
      var d := DirectionOf(direction);
      && 0 <= k < loaded.Length
      && (!CanMove(k, loaded.Length, d) ==>
            ex.reply == Some(Reply(400, Note("error"))) && store.orders == old(store.orders))
      && (CanMove(k, loaded.Length, d) ==>
            && ex.reply == Some(Reply(200, Note("ok")))
            && loaded[..] == Renumbered(StableSort(SwapOrders(old(loaded[..]), k, Neighbour(k, d))))
            && store.orders == WriteOrders(old(store.orders), loaded[..])
            && store.orders.Keys == old(store.orders).Keys
            && (forall id :: id in store.orders ==> 1 <= store.orders[id] <= loaded.Length)
            && (forall a, b :: a in store.orders && b in store.orders && a != b ==> store.orders[a] != store.orders[b]))
  {
    if subcategoryId !in store.orders {
      var _ := ex.Send(Reply(404, Note("Subcategory not found")));
      return;
    }
    ghost var s := loaded[..];
    var outcome := Move(loaded, subcategoryId, DirectionOf(direction));
    if outcome != Moved {
      var _ := ex.Send(Reply(400, Note("error")));
      return;
    }
    ghost var k := IndexOfId(s, subcategoryId);
    MoveStoresNumbering(store.orders, s, k, Neighbour(k, DirectionOf(direction)));
    store.orders := WriteOrders(store.orders, loaded[..]);
    var _ := ex.Send(Reply(200, Note("ok")));
  }
}
