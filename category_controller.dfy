/** `categoryController`: the listing arithmetic of `getAllCategories` and
    the `moveCategory` handler, which swaps a category with its upper or
    lower neighbour in the list ordered by `order` and stores the list
    renumbered 1..n. (`multerFilter` is `Upload.ImageFilter`.) */
module CategoryController {
  import opened Js
  import opened Express
  import opened Reorder
  import opened Listing

  const SetLimit := 20

  /** What `getAllCategories` computes before querying. */
  datatype CategoryListing = CategoryListing(filter: NameFilter, page: Page, message: string)

  function ListCategories(q: ListQuery, count: nat): (r: CategoryListing)
    ensures r.filter.NameLike? <==> Truthy(q.key)
    ensures q.limit.None? || q.limit == Some(0) ==> r.page.limit == SetLimit
    ensures q.page.None? || q.page == Some(0) ==> r.page.page == 1 && r.page.skip == 0
    ensures r.page.skip == (r.page.page - 1) * r.page.limit
    ensures r.page.limit > 0 ==> (r.page.totalPages - 1) * r.page.limit < count <= r.page.totalPages * r.page.limit
    ensures r.message == "Category added" <==> q.m == Some("1")
    ensures r.message == "Category deleted" <==> q.m == Some("2")
    ensures r.message == "" <==> q.m != Some("1") && q.m != Some("2")
  {
    CategoryListing(KeyFilter(q.key), Paginate(q.limit, q.page, count, SetLimit), FlashMessage(q.m, "Category"))
  }

  /** `moveCategory` with `req.body = { categoryId, direction }`; `loaded`
      is the result of `Category.find().sort({ order: 1 })`. A category
      that `findById` does not find gives 404 before anything is read; `'up'`
      at the top, `'down'` at the bottom and any other direction give 400
      and write nothing; otherwise the swapped, sorted and renumbered list
      is written back and the reply is 200. */
  method MoveCategory(ex: Exchange, store: OrderedCollection, loaded: array<Item>, categoryId: string, direction: string)
    requires ex.reply.None? && Lists(loaded[..], store.orders)
    modifies ex, store, loaded
    ensures ex.nexts == old(ex.nexts) && ex.cookies == old(ex.cookies) && ex.locals == old(ex.locals)
    ensures categoryId !in old(store.orders) ==>
      ex.reply == Some(Reply(404, Note("Category not found"))) && store.orders == old(store.orders)
    ensures categoryId in old(store.orders) ==>
      var k := IndexOfId(old(loaded[..]), categoryId);
      var d := DirectionOf(direction);
      && 0 <= k < loaded.Length
      && (!CanMove(k, loaded.Length, d) ==>
            ex.reply == Some(Reply(400, Note("error"))) && store.orders == old(store.orders))
      && (CanMove(k, loaded.Length, d) ==>
            && ex.reply == Some(Reply(200, Note("ok")))
            && loaded[..] == Renumbered(StableSort(SwapOrders(old(loaded[..]), k, Neighbour(k, d))))
            && store.orders == WriteOrders(old(store.orders), loaded[..])
            && store.orders.Keys == old(store.orders).Keys
            && (forall id :: id in store.orders ==> 1 <= store.orders[id] <= loaded.Length)
            && (forall a, b :: a in store.orders && b in store.orders && a != b ==> store.orders[a] != store.orders[b]))
  {
    if categoryId !in store.orders {
      var _ := ex.Send(Reply(404, Note("Category not found")));
      return;
    }
    ghost var s := loaded[..];
    var outcome := Move(loaded, categoryId, DirectionOf(direction));
    if outcome != Moved {
      var _ := ex.Send(Reply(400, Note("error")));
      return;
    }
    ghost var k := IndexOfId(s, categoryId);
    MoveStoresNumbering(store.orders, s, k, Neighbour(k, DirectionOf(direction)));
    store.orders := WriteOrders(store.orders, loaded[..]);
    var _ := ex.Send(Reply(200, Note("ok")));
  }
}
