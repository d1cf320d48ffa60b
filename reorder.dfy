/** The reordering procedure shared by `moveCategory` and `moveSubcategory`:
    the loaded list is an array of (id, order) items; the handler swaps the
    `order` of the target with its upper or lower neighbour, sorts the array
    by `order` (JavaScript's `Array.prototype.sort` is stable) and renumbers
    the items 1..n in array order. */
module Reorder {

  datatype Item = Item(id: string, order: int)

  /** `direction === 'up'`, `direction === 'down'`, or anything else. */
  datatype Direction = Up | Down | Other

  function DirectionOf(s: string): Direction {
    if s == "up" then Up else if s == "down" then Down else Other
  }

  datatype MoveOutcome = NotFound | BadMove | Moved

  function Ids(s: seq<Item>): seq<string> {
    seq(|s|, k requires 0 <= k < |s| => s[k].id)
  }

  /** `findIndex((cat) => cat.id === id)`: the first position holding `id`, or -1. */
  function IndexOfId(s: seq<Item>, id: string): (k: int)
    ensures -1 <= k < |s|
    ensures k >= 0 ==> s[k].id == id && forall j :: 0 <= j < k ==> s[j].id != id
    ensures k == -1 <==> forall j :: 0 <= j < |s| ==> s[j].id != id
  {
    if s == [] then -1
    else if s[0].id == id then 0
    else var k := IndexOfId(s[1..], id); if k == -1 then -1 else k + 1
  }

  predicate SortedByOrder(s: seq<Item>) {
    forall i, j :: 0 <= i < j < |s| ==> s[i].order <= s[j].order
  }

  /** The two assignments through `tempOrder`: items `i` and `j` exchange
      their `order` values and keep everything else. */
  function SwapOrders(s: seq<Item>, i: nat, j: nat): (r: seq<Item>)
    requires i < |s| && j < |s|
    ensures |r| == |s| && Ids(r) == Ids(s)
    ensures r[i].order == s[j].order && r[j].order == s[i].order
    ensures forall k :: 0 <= k < |s| && k != i && k != j ==> r[k] == s[k]
  {
    s[i := s[i].(order := s[j].order)][j := s[j].(order := s[i].order)]
  }

  /** Swapping is symmetric in the two positions. */
  lemma SwapOrdersSymmetric(s: seq<Item>, i: nat, j: nat)
    requires i < |s| && j < |s|
    ensures SwapOrders(s, i, j) == SwapOrders(s, j, i)
  {
  }

  /** One insertion step of a stable sort: `x` goes after the last item whose
      order does not exceed its own, scanning from the end. */
  function InsertStable(s: seq<Item>, x: Item): (r: seq<Item>)
    ensures |r| == |s| + 1
  {
    if s == [] || s[|s| - 1].order <= x.order then s + [x]
    else
      assert s == s[..|s| - 1] + [s[|s| - 1]];
      InsertStable(s[..|s| - 1], x) + [s[|s| - 1]]
  }

  /** A stable sort by `order`, as a left fold of insertions. */
  function StableSort(s: seq<Item>): (r: seq<Item>)
    ensures |r| == |s|
  {
    if s == [] then []
    else
      assert s == s[..|s| - 1] + [s[|s| - 1]];
      InsertStable(StableSort(s[..|s| - 1]), s[|s| - 1])
  }

  /** The `forEach` renumbering: the item at position k gets order k + 1. */
  function Renumbered(s: seq<Item>): seq<Item> {
    seq(|s|, k requires 0 <= k < |s| => s[k].(order := k + 1))
  }

  /** Renumbering keeps the ids in place and numbers the list 1..n. */
  lemma RenumberedShape(s: seq<Item>)
    ensures |Renumbered(s)| == |s| && Ids(Renumbered(s)) == Ids(s)
    ensures forall k :: 0 <= k < |s| ==> Renumbered(s)[k].order == k + 1
  {
    assert Ids(Renumbered(s)) == Ids(s);
  }

  /** Insertion adds exactly the inserted item. */
  lemma {:induction false} InsertStablePermutes(s: seq<Item>, x: Item)
    ensures multiset(InsertStable(s, x)) == multiset(s) + multiset{x}
    decreases |s|
  {
    if s != [] && x.order < s[|s| - 1].order {
      InsertStablePermutes(s[..|s| - 1], x);
      assert s == s[..|s| - 1] + [s[|s| - 1]];
    }
  }

  /** The sort is a permutation of its input. */
  lemma {:induction false} StableSortPermutes(s: seq<Item>)
    ensures multiset(StableSort(s)) == multiset(s)
    decreases |s|
  {
    if s != [] {
      StableSortPermutes(s[..|s| - 1]);
      InsertStablePermutes(StableSort(s[..|s| - 1]), s[|s| - 1]);
      assert s == s[..|s| - 1] + [s[|s| - 1]];
    }
  }

  /** The items of `s` whose order is `k`, in their order in `s`. */
  function WithOrder(s: seq<Item>, k: int): seq<Item> {
    if s == [] then []
    else WithOrder(s[..|s| - 1], k) + (if s[|s| - 1].order == k then [s[|s| - 1]] else [])
  }

  lemma {:induction false} WithOrderAppend(s: seq<Item>, t: seq<Item>, k: int)
    ensures WithOrder(s + t, k) == WithOrder(s, k) + WithOrder(t, k)
    decreases |t|
  {
    if t == [] {
      assert s + t == s;
    } else {
      var t' := t[..|t| - 1];
      assert (s + t)[..|s + t| - 1] == s + t';
      WithOrderAppend(s, t', k);
    }
  }

  lemma {:induction false} InsertStableSorted(s: seq<Item>, x: Item)
    requires SortedByOrder(s)
    ensures SortedByOrder(InsertStable(s, x))
    decreases |s|
  {
    if s == [] || s[|s| - 1].order <= x.order {
    } else {
      var s' := s[..|s| - 1];
      InsertStableSorted(s', x);
      var r' := InsertStable(s', x);
      var r := r' + [s[|s| - 1]];
      InsertStablePermutes(s', x);
      forall i | 0 <= i < |r'|
        ensures r'[i].order <= s[|s| - 1].order
      {
        assert r'[i] in multiset(r');
        if r'[i] == x {
        } else {
          assert r'[i] in multiset(s');
          var j :| 0 <= j < |s'| && s'[j] == r'[i];
        }
      }
    }
  }

  /** The sort's result is ordered by `order`. */
  lemma {:induction false} StableSortSorted(s: seq<Item>)
    ensures SortedByOrder(StableSort(s))
    decreases |s|
  {
    if s != [] {
      StableSortSorted(s[..|s| - 1]);
      InsertStableSorted(StableSort(s[..|s| - 1]), s[|s| - 1]);
    }
  }

  lemma WithOrderSnoc(s: seq<Item>, x: Item, k: int)
    ensures WithOrder(s + [x], k) == WithOrder(s, k) + (if x.order == k then [x] else [])
  {
    assert (s + [x])[..|s|] == s;
  }

  lemma {:induction false} InsertStableWithOrder(s: seq<Item>, x: Item, k: int)
    ensures WithOrder(InsertStable(s, x), k) == WithOrder(s, k) + (if x.order == k then [x] else [])
    decreases |s|
  {
    if s == [] || s[|s| - 1].order <= x.order {
      InsertAtEnd(s, x);
      WithOrderSnoc(s, x, k);
    } else {
      var s' := s[..|s| - 1];
      var l := s[|s| - 1];
      InsertPastLast(s, x);
      InsertStableWithOrder(s', x, k);
      WithOrderSnoc(InsertStable(s', x), l, k);
      assert s == s' + [l];
      WithOrderSnoc(s', l, k);
    }
  }

  /** Stability: for every order value, the items carrying it keep their
      relative order. */
  lemma {:induction false} StableSortIsStable(s: seq<Item>, k: int)
    ensures WithOrder(StableSort(s), k) == WithOrder(s, k)
    decreases |s|
  {
    if s != [] {
      StableSortIsStable(s[..|s| - 1], k);
      InsertStableWithOrder(StableSort(s[..|s| - 1]), s[|s| - 1], k);
    }
  }

  /** Sorting an already sorted list changes nothing. */
  lemma {:induction false} StableSortOfSorted(s: seq<Item>)
    requires SortedByOrder(s)
    ensures StableSort(s) == s
    decreases |s|
  {
    if s != [] {
      var s' := s[..|s| - 1];
      var l := s[|s| - 1];
      assert s == s' + [l];
      SortedInit(s', l);
      StableSortOfSorted(s');
      StableSortSnoc(s', l);
      InsertAtEnd(s', l);
    }
  }

  lemma SortedPrefix(s: seq<Item>, n: nat)
    requires SortedByOrder(s) && n <= |s|
    ensures SortedByOrder(s[..n])
  {
  }

  lemma AppendSplitLast(q: seq<Item>, rest: seq<Item>)
    requires rest != []
    ensures (q + rest)[..|q + rest| - 1] == q + rest[..|rest| - 1]
    ensures (q + rest)[|q + rest| - 1] == rest[|rest| - 1]
    ensures q + rest == (q + rest[..|rest| - 1]) + [rest[|rest| - 1]]
  {
    assert rest == rest[..|rest| - 1] + [rest[|rest| - 1]];
  }

  /** Sorting `p + rest` where the sorted `p` followed by `rest` is already
      in order leaves `rest` where it is. */
  lemma {:induction false} StableSortAppendSorted(p: seq<Item>, rest: seq<Item>)
    requires SortedByOrder(StableSort(p) + rest)
    ensures StableSort(p + rest) == StableSort(p) + rest
    decreases |rest|
  {
    var q := StableSort(p);
    if rest == [] {
      assert p + rest == p;
      assert q + rest == q;
    } else {
      var rest' := rest[..|rest| - 1];
      var y := rest[|rest| - 1];
      AppendSplitLast(q, rest);
      SortedInit(q + rest', y);
      StableSortAppendSorted(p, rest');
      AppendSortedStep(p, rest', y);
      AppendSplitLast(p, rest);
    }
  }

  /** Dropping the last item of a sorted list leaves it sorted, and the
      dropped item is not smaller than the new last one. */
  lemma SortedInit(t: seq<Item>, y: Item)
    requires SortedByOrder(t + [y])
    ensures SortedByOrder(t)
    ensures t == [] || t[|t| - 1].order <= y.order
  {
    forall i, j | 0 <= i < j < |t|
      ensures t[i].order <= t[j].order
    {
      assert (t + [y])[i] == t[i] && (t + [y])[j] == t[j];
    }
    if t != [] {
      assert (t + [y])[|t| - 1] == t[|t| - 1] && (t + [y])[|t|] == y;
    }
  }

  lemma AppendSortedStep(p: seq<Item>, rest': seq<Item>, y: Item)
    requires StableSort(p + rest') == StableSort(p) + rest'
    requires StableSort(p) + rest' == [] || (StableSort(p) + rest')[|StableSort(p) + rest'| - 1].order <= y.order
    ensures StableSort((p + rest') + [y]) == (StableSort(p) + rest') + [y]
  {
    StableSortSnoc(p + rest', y);
    InsertAtEnd(StableSort(p) + rest', y);
  }

  /** The ids of `s` with positions `i` and `i + 1` exchanged. */
  function IdsExchanged(s: seq<Item>, i: nat): (r: seq<string>)
    requires i + 1 < |s|
    ensures |r| == |s| && r[i] == s[i + 1].id && r[i + 1] == s[i].id
    ensures forall k :: 0 <= k < |s| && k != i && k != i + 1 ==> r[k] == s[k].id
  {
    Ids(s)[i := s[i + 1].id][i + 1 := s[i].id]
  }

  /** Sortedness depends on the orders only. */
  lemma SameOrdersSorted(s: seq<Item>, r: seq<Item>)
    requires SortedByOrder(s) && |r| == |s|
    requires forall k :: 0 <= k < |s| ==> r[k].order == s[k].order
    ensures SortedByOrder(r)
  {
  }

  /** The list after the exchange: the two items trade places and orders. */
  function Exchanged(s: seq<Item>, i: nat): (r: seq<Item>)
    requires i + 1 < |s|
    ensures |r| == |s| && Ids(r) == IdsExchanged(s, i)
    ensures forall k :: 0 <= k < |s| ==> r[k].order == s[k].order
  {
    s[..i] + [s[i + 1].(order := s[i].order), s[i].(order := s[i + 1].order)] + s[i + 2..]
  }

  /** Inserting an item no smaller than the last appends it. */
  lemma InsertAtEnd(s: seq<Item>, x: Item)
    requires s == [] || s[|s| - 1].order <= x.order
    ensures InsertStable(s, x) == s + [x]
  {
  }

  /** Inserting an item smaller than the last goes past the last. */
  lemma InsertPastLast(s: seq<Item>, x: Item)
    requires s != [] && x.order < s[|s| - 1].order
    ensures InsertStable(s, x) == InsertStable(s[..|s| - 1], x) + [s[|s| - 1]]
  {
  }

  /** Sorting a list extended by one item inserts that item into the sorted rest. */
  lemma StableSortSnoc(s: seq<Item>, x: Item)
    ensures StableSort(s + [x]) == InsertStable(StableSort(s), x)
  {
    assert (s + [x])[..|s|] == s;
  }

  lemma SortedSnoc(s: seq<Item>, x: Item)
    requires SortedByOrder(s) && (s == [] || s[|s| - 1].order <= x.order)
    ensures SortedByOrder(s + [x])
  {
    var t := s + [x];
    forall i, j | 0 <= i < j < |t|
      ensures t[i].order <= t[j].order
    {
      if j == |s| && i < |s| - 1 {
        assert t[i].order <= s[|s| - 1].order;
      }
    }
  }

  lemma AppendPair(h: seq<Item>, x: Item, y: Item)
    ensures h + [x, y] == h + [x] + [y]
  {
  }

  /** A sorted list followed by two items out of order, the second no
      smaller than the list's last: sorting exchanges the two. */
  lemma SortTwoTail(h: seq<Item>, x: Item, y: Item)
    requires SortedByOrder(h) && (h == [] || h[|h| - 1].order <= y.order) && y.order < x.order
    ensures StableSort(h + [x, y]) == h + [y, x]
  {
    SortedSnoc(h, x);
    var p := h + [x];
    StableSortOfSorted(p);
    StableSortSnoc(p, y);
    assert p[..|p| - 1] == h;
    InsertPastLast(p, y);
    InsertAtEnd(h, y);
    AppendPair(h, x, y);
    AppendPair(h, y, x);
  }

  /** The first `i + 2` items after the swap sort into the exchanged order. */
  lemma SwapThenSortPrefix(s: seq<Item>, i: nat)
    requires SortedByOrder(s) && i + 1 < |s| && s[i].order < s[i + 1].order
    ensures var a', b' := s[i].(order := s[i + 1].order), s[i + 1].(order := s[i].order);
      StableSort(s[..i] + [a', b']) == s[..i] + [b', a']
  {
    SortedPrefix(s, i);
    SortTwoTail(s[..i], s[i].(order := s[i + 1].order), s[i + 1].(order := s[i].order));
  }

  /** The adjacent-swap effect: on a list sorted by `order` whose items `i`
      and `i + 1` have different orders, swapping their orders and sorting
      exchanges their positions and moves nothing else. */
  lemma {:induction false} SwapThenSortExchanges(s: seq<Item>, i: nat)
    requires SortedByOrder(s) && i + 1 < |s| && s[i].order < s[i + 1].order
    ensures StableSort(SwapOrders(s, i, i + 1)) == Exchanged(s, i)
    ensures Ids(StableSort(SwapOrders(s, i, i + 1))) == IdsExchanged(s, i)
  {
    var a' := s[i].(order := s[i + 1].order);
    var b' := s[i + 1].(order := s[i].order);
    var q := s[..i] + [a', b'];
    SwapThenSortPrefix(s, i);
    var rest := s[i + 2..];
    SameOrdersSorted(s, Exchanged(s, i));
    assert StableSort(q) + rest == Exchanged(s, i);
    StableSortAppendSorted(q, rest);
    assert SwapOrders(s, i, i + 1) == q + rest;
  }

  /** With equal orders the swap is invisible and the sort leaves the
      sorted list as it was. */
  lemma SwapEqualOrdersChangesNothing(s: seq<Item>, i: nat, j: nat)
    requires SortedByOrder(s) && i < |s| && j < |s| && s[i].order == s[j].order
    ensures StableSort(SwapOrders(s, i, j)) == s
  {
    assert SwapOrders(s, i, j) == s;
    StableSortOfSorted(s);
  }

  lemma IdsAppend(s: seq<Item>, t: seq<Item>)
    ensures Ids(s + t) == Ids(s) + Ids(t)
  {
  }

  lemma IdsSnoc(s: seq<Item>, x: Item)
    ensures multiset(Ids(s + [x])) == multiset(Ids(s)) + multiset{x.id}
  {
    IdsAppend(s, [x]);
    assert Ids([x]) == [x.id];
  }

  lemma {:induction false} InsertStableIds(s: seq<Item>, x: Item)
    ensures multiset(Ids(InsertStable(s, x))) == multiset(Ids(s)) + multiset{x.id}
    decreases |s|
  {
    if s == [] || s[|s| - 1].order <= x.order {
      InsertAtEnd(s, x);
      IdsSnoc(s, x);
    } else {
      var s' := s[..|s| - 1];
      var l := s[|s| - 1];
      InsertPastLast(s, x);
      InsertStableIds(s', x);
      IdsSnoc(InsertStable(s', x), l);
      assert s == s' + [l];
      IdsSnoc(s', l);
    }
  }

  /** Sorting neither adds nor loses an id. */
  lemma {:induction false} StableSortIds(s: seq<Item>)
    ensures multiset(Ids(StableSort(s))) == multiset(Ids(s))
    decreases |s|
  {
    if s != [] {
      var s' := s[..|s| - 1];
      var l := s[|s| - 1];
      StableSortIds(s');
      InsertStableIds(StableSort(s'), l);
      assert s == s' + [l];
      StableSortSnoc(s', l);
      IdsSnoc(s', l);
    }
  }

  /** After a move the orders are exactly 1..n and the list holds the same
      ids, none added and none lost. */
  lemma MovedListNumbering(s: seq<Item>, i: nat, j: nat)
    requires i < |s| && j < |s|
    ensures var r := Renumbered(StableSort(SwapOrders(s, i, j)));
      && |r| == |s|
      && (forall k :: 0 <= k < |r| ==> r[k].order == k + 1)
      && multiset(Ids(r)) == multiset(Ids(s))
  {
    var t := StableSort(SwapOrders(s, i, j));
    StableSortIds(SwapOrders(s, i, j));
    RenumberedShape(t);
  }

  /** `findIndex` as a loop. */
  method FindIndex(a: array<Item>, id: string) returns (k: int)
    ensures k == IndexOfId(a[..], id)
  {
    k := 0;
    while k < a.Length && a[k].id != id
      invariant 0 <= k <= a.Length
      invariant forall j :: 0 <= j < k ==> a[j].id != id
    {
      k := k + 1;
    }
    if k == a.Length {
      k := -1;
    }
  }

  method SwapOrdersInPlace(a: array<Item>, i: nat, j: nat)
    requires i < a.Length && j < a.Length
    modifies a
    ensures a[..] == SwapOrders(old(a[..]), i, j)
  {
    var tempOrder := a[i].order;
    a[i] := a[i].(order := a[j].order);
    a[j] := a[j].(order := tempOrder);
  }

  /** Where an insertion lands: after position `j - 1` when every later
      item has a larger order and the item at `j - 1` does not. */
  lemma {:induction false} InsertStableAt(r: seq<Item>, x: Item, j: nat)
    requires j <= |r| && (j == 0 || r[j - 1].order <= x.order)
    requires forall m :: j <= m < |r| ==> r[m].order > x.order
    ensures InsertStable(r, x) == r[..j] + [x] + r[j..]
    decreases |r|
  {
    if j == |r| {
      assert r[..j] == r;
      InsertAtEnd(r, x);
    } else {
      var r' := r[..|r| - 1];
      InsertPastLast(r, x);
      InsertStableAt(r', x, j);
      assert r'[..j] == r[..j];
      assert r'[j..] + [r[|r| - 1]] == r[j..];
    }
  }

  /** A list that agrees with `r` before `j`, holds `x` at `j` and `r`
      shifted by one after it, is `r` with `x` spliced in at `j`. */
  lemma Spliced(t: seq<Item>, r: seq<Item>, x: Item, j: nat)
    requires |t| == |r| + 1 && j <= |r| && t[j] == x
    requires forall m :: 0 <= m < j ==> t[m] == r[m]
    requires forall m :: j < m < |t| ==> t[m] == r[m - 1]
    ensures t == r[..j] + [x] + r[j..]
  {
  }

  /** The first `i + 1` items sort by inserting item `i` into the sorted first `i`. */
  lemma StableSortPrefixStep(s: seq<Item>, i: nat)
    requires i < |s|
    ensures StableSort(s[..i + 1]) == InsertStable(StableSort(s[..i]), s[i])
  {
    assert s[..i + 1][..i] == s[..i];
  }

  /** The inner loop of the insertion sort: item `i` moves down past every
      item with a larger order. */
  method InsertItem(a: array<Item>, i: nat)
    requires i < a.Length
    modifies a
    ensures a[..i + 1] == InsertStable(old(a[..i]), old(a[i]))
    ensures a[i + 1..] == old(a[i + 1..])
  {
    ghost var r := a[..i];
    ghost var t := a[i + 1..];
    var x := a[i];
    var j := i;
    while j > 0 && a[j - 1].order > x.order
      invariant 0 <= j <= i
      invariant forall m :: 0 <= m < j ==> a[m] == r[m]
      invariant forall m :: j < m <= i ==> a[m] == r[m - 1]
      invariant forall m :: j <= m < i ==> r[m].order > x.order
      invariant a[i + 1..] == t
    {
      a[j] := a[j - 1];
      j := j - 1;
    }
    a[j] := x;
    InsertStableAt(r, x, j);
    Spliced(a[..i + 1], r, x, j);
  }

  /** `sort((a, b) => a.order - b.order)` as an in-place insertion sort. */
  method SortByOrder(a: array<Item>)
    modifies a
    ensures a[..] == StableSort(old(a[..]))
  {
    ghost var s := a[..];
    var i := 0;
    while i < a.Length
      invariant 0 <= i <= a.Length
      invariant a[..i] == StableSort(s[..i])
      invariant a[i..] == s[i..]
    {
      assert a[i] == s[i];
      InsertItem(a, i);
      StableSortPrefixStep(s, i);
      i := i + 1;
    }
    assert s[..a.Length] == s;
  }

  /** The `forEach((cat, index) => cat.order = index + 1)` loop. */
  method Renumber(a: array<Item>)
    modifies a
    ensures a[..] == Renumbered(old(a[..]))
  {
    var k := 0;
    while k < a.Length
      invariant 0 <= k <= a.Length
      invariant forall j :: 0 <= j < k ==> a[j] == old(a[j]).(order := j + 1)
      invariant forall j :: k <= j < a.Length ==> a[j] == old(a[j])
    {
      a[k] := a[k].(order := k + 1);
      k := k + 1;
    }
  }

  /** The neighbour a move in direction `d` swaps with. */
  function Neighbour(k: int, d: Direction): int {
    if d == Up then k - 1 else k + 1
  }

  /** Whether the move is allowed: `'up'` below the top, `'down'` above the bottom. */
  predicate CanMove(k: int, n: int, d: Direction) {
    (d == Up && k > 0) || (d == Down && k < n - 1)
  }

  /** The reordering steps after the target was found: 400 (no change) for
      `'up'` at the top, `'down'` at the bottom and any other direction;
      otherwise swap, sort and renumber. `found` is whether `findById` found
      the target in the same collection the array was loaded from. */
  method Move(a: array<Item>, id: string, d: Direction) returns (r: MoveOutcome)
    modifies a
    ensures r == NotFound <==> id !in Ids(old(a[..]))
    ensures r != Moved ==> a[..] == old(a[..])
    ensures r == BadMove <==> id in Ids(old(a[..])) && !CanMove(IndexOfId(old(a[..]), id), a.Length, d)
    ensures r == Moved ==>
      var k := IndexOfId(old(a[..]), id);
      0 <= k < a.Length && 0 <= Neighbour(k, d) < a.Length &&
      a[..] == Renumbered(StableSort(SwapOrders(old(a[..]), k, Neighbour(k, d))))
  {
    var k := FindIndex(a, id);
    if k == -1 {
      assert forall j :: 0 <= j < a.Length ==> Ids(a[..])[j] != id;
      return NotFound;
    }
    assert Ids(a[..])[k] == id;
    if !CanMove(k, a.Length, d) {
      return BadMove;
    }
    SwapOrdersInPlace(a, k, Neighbour(k, d));
    SortByOrder(a);
    Renumber(a);
    r := Moved;
  }

  /** What a `'down'` move does to a list sorted by `order`: the target
      and the item below it exchange positions when their orders differ,
      and the positions stay as they were when the orders are equal; in
      both cases the orders become 1..n. */
  lemma MoveDownEffect(s: seq<Item>, k: nat)
    requires SortedByOrder(s) && k + 1 < |s|
    ensures var r := Renumbered(StableSort(SwapOrders(s, k, k + 1)));
      && (s[k].order < s[k + 1].order ==> Ids(r) == IdsExchanged(s, k))
      && (s[k].order == s[k + 1].order ==> Ids(r) == Ids(s))
      && (forall j :: 0 <= j < |r| ==> r[j].order == j + 1)
  {
    RenumberedShape(StableSort(SwapOrders(s, k, k + 1)));
    if s[k].order < s[k + 1].order {
      SwapThenSortExchanges(s, k);
    } else {
      SwapEqualOrdersChangesNothing(s, k, k + 1);
    }
  }

  /** The same for an `'up'` move and the item above the target. */
  lemma MoveUpEffect(s: seq<Item>, k: nat)
    requires SortedByOrder(s) && 0 < k < |s|
    ensures var r := Renumbered(StableSort(SwapOrders(s, k, k - 1)));
      && (s[k - 1].order < s[k].order ==> Ids(r) == IdsExchanged(s, k - 1))
      && (s[k - 1].order == s[k].order ==> Ids(r) == Ids(s))
      && (forall j :: 0 <= j < |r| ==> r[j].order == j + 1)
  {
    var k' := k - 1;
    assert k' + 1 == k;
    SwapOrdersSymmetric(s, k, k');
    MoveDownEffect(s, k');
  }

  predicate Distinct(t: seq<string>) {
    forall i, j :: 0 <= i < j < |t| ==> t[i] != t[j]
  }

  lemma DistinctPrefix(t: seq<string>)
    requires |t| > 0 && Distinct(t)
    ensures Distinct(t[..|t| - 1]) && t[|t| - 1] !in multiset(t[..|t| - 1])
  {
  }

  lemma {:induction false} DistinctHasSingletons(t: seq<string>)
    requires Distinct(t)
    ensures forall x :: multiset(t)[x] <= 1
    decreases |t|
  {
    if t != [] {
      var t', y := t[..|t| - 1], t[|t| - 1];
      assert t == t' + [y];
      DistinctPrefix(t);
      DistinctHasSingletons(t');
    }
  }

  lemma {:induction false} SingletonsAreDistinct(t: seq<string>)
    requires forall x :: multiset(t)[x] <= 1
    ensures Distinct(t)
    decreases |t|
  {
    if t != [] {
      var t', y := t[..|t| - 1], t[|t| - 1];
      assert t == t' + [y];
      assert forall x :: multiset(t')[x] <= multiset(t)[x];
      SingletonsAreDistinct(t');
      assert multiset(t')[y] == 0;
      forall i, j | 0 <= i < j < |t|
        ensures t[i] != t[j]
      {
        if j == |t| - 1 {
          assert t[i] == t'[i] && t'[i] in multiset(t');
        } else {
          assert t[i] == t'[i] && t[j] == t'[j];
        }
      }
    }
  }

  /** Rearranging a list of distinct ids keeps them distinct. */
  lemma DistinctPermutation(t: seq<string>, u: seq<string>)
    requires Distinct(t) && multiset(t) == multiset(u)
    ensures Distinct(u)
  {
    DistinctHasSingletons(t);
    SingletonsAreDistinct(u);
  }

  /** The collection a move handler reads and writes: each document's
      `order`, by id. */
  class OrderedCollection {
    var orders: map<string, int>

    constructor (orders: map<string, int>)
      ensures this.orders == orders
    {
      this.orders := orders;
    }
  }

  /** `find().sort({ order: 1 })` returned `s`: every document once, with
      its stored order. */
  predicate Lists(s: seq<Item>, orders: map<string, int>) {
    && Distinct(Ids(s))
    && (forall k :: 0 <= k < |s| ==> s[k].id in orders && orders[s[k].id] == s[k].order)
    && (forall id :: id in orders ==> id in Ids(s))
  }

  /** The `Promise.all` of `findOneAndUpdate({ _id }, { order })`, as one batch. */
  function WriteOrders(orders: map<string, int>, s: seq<Item>): map<string, int> {
    if s == [] then orders
    else WriteOrders(orders, s[..|s| - 1])[s[|s| - 1].id := s[|s| - 1].order]
  }

  /** With distinct ids, every written document ends with its item's order
      and no other document changes. */
  lemma WriteOrdersEffect(orders: map<string, int>, s: seq<Item>)
    requires Distinct(Ids(s))
    ensures WriteOrders(orders, s).Keys == orders.Keys + set k | 0 <= k < |s| :: s[k].id
    ensures forall k :: 0 <= k < |s| ==> WriteOrders(orders, s)[s[k].id] == s[k].order
    ensures forall id :: id in orders && id !in Ids(s) ==> WriteOrders(orders, s)[id] == orders[id]
  {
    WriteOrdersKeys(orders, s);
    WriteOrdersWritten(orders, s);
    WriteOrdersKeepsOthers(orders, s);
  }

  lemma {:induction false} WriteOrdersKeys(orders: map<string, int>, s: seq<Item>)
    ensures WriteOrders(orders, s).Keys == orders.Keys + set k | 0 <= k < |s| :: s[k].id
    decreases |s|
  {
    if s != [] {
      var s' := s[..|s| - 1];
      WriteOrdersKeys(orders, s');
      assert (set k | 0 <= k < |s| :: s[k].id) == (set k | 0 <= k < |s'| :: s'[k].id) + {s[|s| - 1].id};
    }
  }

  lemma {:induction false} WriteOrdersWritten(orders: map<string, int>, s: seq<Item>)
    requires Distinct(Ids(s))
    ensures forall k :: 0 <= k < |s| ==> s[k].id in WriteOrders(orders, s) && WriteOrders(orders, s)[s[k].id] == s[k].order
    decreases |s|
  {
    if s != [] {
      var s' := s[..|s| - 1];
      assert Ids(s') == Ids(s)[..|s| - 1];
      WriteOrdersWritten(orders, s');
      forall k | 0 <= k < |s| - 1
        ensures s[k].id in WriteOrders(orders, s) && WriteOrders(orders, s)[s[k].id] == s[k].order
      {
        assert Ids(s)[k] == s[k].id && Ids(s)[|s| - 1] == s[|s| - 1].id;
        assert s'[k] == s[k];
      }
    }
  }

  lemma {:induction false} WriteOrdersKeepsOthers(orders: map<string, int>, s: seq<Item>)
    ensures forall id :: id in orders && id !in Ids(s) ==> id in WriteOrders(orders, s) && WriteOrders(orders, s)[id] == orders[id]
    decreases |s|
  {
    if s != [] {
      var s' := s[..|s| - 1];
      assert Ids(s') == Ids(s)[..|s| - 1];
      WriteOrdersKeepsOthers(orders, s');
      forall id | id in orders && id !in Ids(s)
        ensures id in WriteOrders(orders, s) && WriteOrders(orders, s)[id] == orders[id]
      {
        assert id != Ids(s)[|s| - 1];
        assert id !in Ids(s');
      }
    }
  }

  lemma SameIdsSameMembers(s: seq<Item>, r: seq<Item>)
    requires multiset(Ids(r)) == multiset(Ids(s))
    ensures forall id :: id in Ids(r) <==> id in Ids(s)
  {
    forall id
      ensures id in Ids(r) <==> id in Ids(s)
    {
      assert id in Ids(r) <==> id in multiset(Ids(r));
      assert id in Ids(s) <==> id in multiset(Ids(s));
    }
  }

  /** Writing a list numbered 1..n whose ids are exactly the collection's. */
  lemma NumberedWrite(orders: map<string, int>, r: seq<Item>)
    requires Distinct(Ids(r)) && (forall k :: 0 <= k < |r| ==> r[k].order == k + 1)
    requires forall id :: id in orders <==> id in Ids(r)
    ensures var w := WriteOrders(orders, r);
      && w.Keys == orders.Keys
      && (forall id :: id in w ==> 1 <= w[id] <= |r|)
      && (forall a, b :: a in w && b in w && a != b ==> w[a] != w[b])
  {
    NumberedWriteKeys(orders, r);
    NumberedWritePositions(orders, r);
    var w := WriteOrders(orders, r);
    forall a, b | a in w && b in w && a != b
      ensures w[a] != w[b]
    {
      var ka, kb := IndexOfId(r, a), IndexOfId(r, b);
      assert r[ka].id == a && r[kb].id == b;
    }
  }

  lemma NumberedWriteKeys(orders: map<string, int>, r: seq<Item>)
    requires forall id :: id in orders <==> id in Ids(r)
    ensures WriteOrders(orders, r).Keys == orders.Keys
  {
    WriteOrdersKeys(orders, r);
    forall k | 0 <= k < |r|
      ensures r[k].id in orders
    {
      assert Ids(r)[k] == r[k].id;
    }
  }

  lemma NumberedWritePositions(orders: map<string, int>, r: seq<Item>)
    requires Distinct(Ids(r)) && (forall k :: 0 <= k < |r| ==> r[k].order == k + 1)
    requires forall id :: id in orders <==> id in Ids(r)
    ensures forall id :: id in WriteOrders(orders, r) ==>
      0 <= IndexOfId(r, id) && WriteOrders(orders, r)[id] == IndexOfId(r, id) + 1
  {
    NumberedWriteKeys(orders, r);
    WriteOrdersWritten(orders, r);
    forall id | id in WriteOrders(orders, r)
      ensures 0 <= IndexOfId(r, id) && WriteOrders(orders, r)[id] == IndexOfId(r, id) + 1
    {
      ListedPosition(r, id);
    }
  }

  /** An id that `r` lists is found by `IndexOfId`. */
  lemma ListedPosition(r: seq<Item>, id: string)
    requires id in Ids(r)
    ensures 0 <= IndexOfId(r, id)
  {
    var j :| 0 <= j < |r| && Ids(r)[j] == id;
    assert r[j].id == id;
  }

  /** After a move the stored orders number the collection 1..n: the same
      documents, each with an order between 1 and n, no two alike. */
  lemma MoveStoresNumbering(orders: map<string, int>, s: seq<Item>, i: nat, j: nat)
    requires Lists(s, orders) && i < |s| && j < |s|
    ensures var w := WriteOrders(orders, Renumbered(StableSort(SwapOrders(s, i, j))));
      && w.Keys == orders.Keys
      && (forall id :: id in w ==> 1 <= w[id] <= |s|)
      && (forall a, b :: a in w && b in w && a != b ==> w[a] != w[b])
  {
    var r := Renumbered(StableSort(SwapOrders(s, i, j)));
    MovedListNumbering(s, i, j);
    DistinctPermutation(Ids(s), Ids(r));
    SameIdsSameMembers(s, r);
    NumberedWrite(orders, r);
  }
}
