/**
 * The product list (productController.js getProducts, findSortedPage): two queries make one
 * list with the products in stock first, whatever the sort, and price sorts pick a page of
 * ids before fetching the documents. `name` is the rank of the name.
 */
module CatalogPaging {
  import opened Wrappers
  import opened Paging

  datatype Product = Product(id: nat, name: int, stock: Option<int>, price: int, salePrice: int, createdAt: int)

  datatype Sort = Newest | Oldest | NameAsc | NameDesc | PriceAsc | PriceDesc | StockAsc | StockDesc

  predicate InStock(p: Product) {
    p.stock.Some? && p.stock.value > 0
  }

  // ---------------------------------------------------------------------------
  // The orders
  // ---------------------------------------------------------------------------

  function EffectivePrice(p: Product): int {
    if p.salePrice > 0 && p.salePrice < p.price then p.salePrice else p.price
  }

  predicate ByPrice(sort: Sort) {
    sort.PriceAsc? || sort.PriceDesc?
  }

  /** Stock without a number sorts below every number. */
  predicate LessStock(p: Product, q: Product) {
    if p.stock.None? then q.stock.Some? else q.stock.Some? && p.stock.value < q.stock.value
  }

  /** p is less than q on the first sort key. */
  predicate Less(p: Product, q: Product, sort: Sort) {
    match sort
    case Newest => p.createdAt > q.createdAt
    case Oldest => p.createdAt < q.createdAt
    case NameAsc => p.name < q.name
    case NameDesc => p.name > q.name
    case PriceAsc => EffectivePrice(p) < EffectivePrice(q)
    case PriceDesc => EffectivePrice(p) > EffectivePrice(q)
    case StockAsc => LessStock(p, q)
    case StockDesc => LessStock(q, p)
  }

  /** p comes before q: by the sort key, then newest first, and for price sorts by id at last. */
  predicate Before(p: Product, q: Product, sort: Sort) {
    if Less(p, q, sort) || Less(q, p, sort) then Less(p, q, sort)
    else if p.createdAt != q.createdAt then p.createdAt > q.createdAt
    else ByPrice(sort) && p.id < q.id
  }

  /** The store may return these two in either order. */
  predicate Tied(p: Product, q: Product, sort: Sort) {
    !Before(p, q, sort) && !Before(q, p, sort)
  }

  ghost predicate Untied(s: seq<Product>, sort: Sort) {
    forall p, q :: p in s && q in s && p.id != q.id ==> !Tied(p, q, sort)
  }

  /** Price sorts never tie; the others tie exactly on equal sort key and creation time. */
  lemma TiedIff(p: Product, q: Product, sort: Sort)
    requires p.id != q.id
    ensures Tied(p, q, sort) <==>
      && !ByPrice(sort) && p.createdAt == q.createdAt
      && (sort in {NameAsc, NameDesc} ==> p.name == q.name)
      && (sort in {StockAsc, StockDesc} ==> p.stock == q.stock)
  {
  }

  /** The order compares keys: what separates two products puts any third on one side of one of them. */
  lemma Compares(p: Product, q: Product, r: Product, sort: Sort)
    ensures Before(p, q, sort) ==> !Before(q, p, sort) && (Before(p, r, sort) || Before(r, q, sort))
  {
  }

  function Insert(p: Product, s: seq<Product>, sort: Sort): seq<Product> {
    if s == [] || Before(p, s[0], sort) then [p] + s else [s[0]] + Insert(p, s[1..], sort)
  }

  function Sorted(s: seq<Product>, sort: Sort): seq<Product> {
    if s == [] then [] else Insert(s[0], Sorted(s[1..], sort), sort)
  }

  function Filter(s: seq<Product>, stocked: bool): seq<Product> {
    if s == [] then []
    else if InStock(s[0]) == stocked then [s[0]] + Filter(s[1..], stocked)
    else Filter(s[1..], stocked)
  }

  /** Nothing stands before something that must come first. */
  ghost predicate Ordered(s: seq<Product>, sort: Sort) {
    s != [] ==> Leads(s[0], s[1..], sort) && Ordered(s[1..], sort)
  }

  ghost predicate Leads(p: Product, s: seq<Product>, sort: Sort) {
    forall q :: q in s ==> !Before(q, p, sort)
  }

  ghost predicate UniqueIds(s: seq<Product>) {
    s != [] ==> NewId(s[0], s[1..]) && UniqueIds(s[1..])
  }

  ghost predicate NewId(p: Product, s: seq<Product>) {
    forall q :: q in s ==> q.id != p.id
  }

  lemma {:induction false} InsertMembers(p: Product, s: seq<Product>, sort: Sort)
    ensures multiset(Insert(p, s, sort)) == multiset(s) + multiset{p}
    ensures forall q :: q in Insert(p, s, sort) <==> q == p || q in s
  {
    hide Before;
    if s != [] {
      InsertMembers(p, s[1..], sort);
      assert s == [s[0]] + s[1..];
    }
  }

  lemma {:induction false} InsertOrders(p: Product, s: seq<Product>, sort: Sort)
    requires Ordered(s, sort)
    ensures Ordered(Insert(p, s, sort), sort)
  {
    if s != [] {
      Compares(p, s[0], p, sort);
      forall q | q in s[1..] ensures Before(p, s[0], sort) ==> !Before(q, p, sort) {
        Compares(p, s[0], q, sort);
        Compares(p, q, q, sort);
      }
      hide Before;
      if Before(p, s[0], sort) {
        assert s == [s[0]] + s[1..];
        assert ([p] + s)[1..] == s;
      } else {
        var rest := Insert(p, s[1..], sort);
        InsertOrders(p, s[1..], sort);
        InsertMembers(p, s[1..], sort);
        assert ([s[0]] + rest)[1..] == rest;
      }
    }
  }

  lemma {:induction false} SortedMembers(s: seq<Product>, sort: Sort)
    ensures multiset(Sorted(s, sort)) == multiset(s)
    ensures forall q :: q in Sorted(s, sort) <==> q in s
  {
    hide Before, Insert;
    if s != [] {
      SortedMembers(s[1..], sort);
      assert s == [s[0]] + s[1..];
      InsertMembers(s[0], Sorted(s[1..], sort), sort);
    }
  }

  lemma {:induction false} SortedOrders(s: seq<Product>, sort: Sort)
    ensures Ordered(Sorted(s, sort), sort)
  {
    hide Insert, Before;
    if s != [] {
      SortedOrders(s[1..], sort);
      InsertOrders(s[0], Sorted(s[1..], sort), sort);
    }
  }

  lemma FilterCons(p: Product, s: seq<Product>, stocked: bool)
    ensures Filter([p] + s, stocked) == if InStock(p) == stocked then [p] + Filter(s, stocked) else Filter(s, stocked)
  {
  }

  lemma InsertCons(p: Product, q: Product, s: seq<Product>, sort: Sort)
    ensures Insert(p, [q] + s, sort)
         == if Before(p, q, sort) then [p] + ([q] + s) else [q] + Insert(p, s, sort)
  {
  }

  lemma {:induction false} FilterMembers(s: seq<Product>, stocked: bool)
    ensures forall q :: q in Filter(s, stocked) <==> q in s && InStock(q) == stocked
    ensures UniqueIds(s) ==> UniqueIds(Filter(s, stocked))
  {
    if s != [] {
      FilterMembers(s[1..], stocked);
      assert s == [s[0]] + s[1..];
      if InStock(s[0]) == stocked { assert Filter(s, stocked)[1..] == Filter(s[1..], stocked); }
    }
  }

  lemma {:induction false} InsertFilters(p: Product, s: seq<Product>, sort: Sort, stocked: bool)
    requires Ordered(s, sort)
    ensures Filter(Insert(p, s, sort), stocked)
         == if InStock(p) == stocked then Insert(p, Filter(s, stocked), sort) else Filter(s, stocked)
  {
    if s == [] {
      FilterCons(p, [], stocked);
    } else if Before(p, s[0], sort) {
      FilterCons(p, s, stocked);
      FilterMembers(s, stocked);
      forall q | q in s ensures Before(p, q, sort) { Compares(p, s[0], q, sort); }
      hide Before;
      var rest := Filter(s, stocked);
      assert rest != [] ==> rest[0] in rest;
    } else {
      hide Before;
      InsertFilters(p, s[1..], sort, stocked);
      FilterCons(s[0], Insert(p, s[1..], sort), stocked);
      if InStock(s[0]) == stocked { InsertCons(p, s[0], Filter(s[1..], stocked), sort); }
    }
  }

  /** Sorting the products of one query is taking that part of the sorted list. */
  lemma {:induction false} SortFilterCommute(s: seq<Product>, sort: Sort, stocked: bool)
    ensures Sorted(Filter(s, stocked), sort) == Filter(Sorted(s, sort), stocked)
  {
    hide Insert, Before;
    if s != [] {
      SortFilterCommute(s[1..], sort, stocked);
      SortedOrders(s[1..], sort);
      InsertFilters(s[0], Sorted(s[1..], sort), sort, stocked);
      if InStock(s[0]) == stocked { assert ([s[0]] + Filter(s[1..], stocked))[1..] == Filter(s[1..], stocked); }
    }
  }

  // ---------------------------------------------------------------------------
  // Ids first, documents after
  // ---------------------------------------------------------------------------

  /** The documents of these ids that are still there, in the order of the ids. */
  function Present(ids: seq<nat>, found: seq<Product>): seq<Product> {
    if ids == [] then []
    else
      var k := Position(found, ids[0]);
      if k < |found| then [found[k]] + Present(ids[1..], found) else Present(ids[1..], found)
  }

  function Position(found: seq<Product>, id: nat): (k: nat)
    ensures k <= |found|
    ensures k < |found| ==> found[k].id == id
    ensures k == |found| ==> forall q :: q in found ==> q.id != id
  {
    if found == [] || found[0].id == id then 0 else 1 + Position(found[1..], id)
  }

  function Ids(rows: seq<Product>): (ids: seq<nat>)
    ensures |ids| == |rows| && forall i :: 0 <= i < |rows| ==> ids[i] == rows[i].id
  {
    seq(|rows|, i requires 0 <= i < |rows| => rows[i].id)
  }

  lemma {:induction false} PositionUnique(found: seq<Product>, j: nat)
    requires UniqueIds(found) && j < |found|
    ensures Position(found, found[j].id) == j
  {
    if j > 0 {
      assert found[j] in found[1..];
      PositionUnique(found[1..], j - 1);
    }
  }

  /** new Map(docs.map(...)) */
  method IndexById(found: seq<Product>) returns (byId: map<nat, Product>)
    requires UniqueIds(found)
    ensures forall id :: id in byId <==> Position(found, id) < |found|
    ensures forall id :: id in byId ==> byId[id] == found[Position(found, id)]
  {
    byId := map[];
    var i := 0;
    while i < |found|
      invariant 0 <= i <= |found|
      invariant forall id :: id in byId <==> Position(found, id) < i
      invariant forall id :: id in byId ==> byId[id] == found[Position(found, id)]
    {
      PositionUnique(found, i);
      byId := byId[found[i].id := found[i]];
      i := i + 1;
    }
  }

  /** The documents come back in any order; the page has the order of the ids. */
  method Reorder(ids: seq<nat>, found: seq<Product>) returns (page: seq<Product>)
    requires UniqueIds(found)
    ensures page == Present(ids, found)
  {
    var byId := IndexById(found);
    hide UniqueIds, Position;
    var i := 0;
    page := [];
    while i < |ids|
      invariant 0 <= i <= |ids|
      invariant page + Present(ids[i..], found) == Present(ids, found)
    {
      assert ids[i..][0] == ids[i] && ids[i..][1..] == ids[i + 1..];
      if ids[i] in byId { page := page + [byId[ids[i]]]; }
      i := i + 1;
    }
  }

  /** If nothing changed between the two queries, the reordered documents are the rows. */
  lemma {:induction false} ReorderedRows(rows: seq<Product>, found: seq<Product>)
    requires UniqueIds(found) && forall p :: p in rows ==> p in found
    ensures Present(Ids(rows), found) == rows
  {
    if rows != [] {
      assert rows[0] in found;
      var j :| 0 <= j < |found| && found[j] == rows[0];
      PositionUnique(found, j);
      assert Ids(rows)[1..] == Ids(rows[1..]);
      ReorderedRows(rows[1..], found);
    }
  }

  // ---------------------------------------------------------------------------
  // One page
  // ---------------------------------------------------------------------------

  ghost predicate Fetches(found: seq<Product>, rows: seq<Product>) {
    UniqueIds(found) && forall p :: p in rows ==> p in found
  }

  /** findSortedPage on `list`, the query's products as the store orders them; a price sort fetches `found` by id, in whatever order. */
  method FindSortedPage(list: seq<Product>, sort: Sort, skip: nat, limit: nat, found: seq<Product>) returns (page: seq<Product>)
    requires ByPrice(sort) ==> Fetches(found, list)
    ensures page == Slice(list, skip, limit)
  {
    var rows := Slice(list, skip, limit);
    if !ByPrice(sort) { return rows; }
    if rows == [] { return []; }
    page := Reorder(Ids(rows), found);
    ReorderedRows(rows, found);
  }

  /** The lists from which the store answers the two queries of one page. */
  datatype Answer = Answer(stocked: seq<Product>, rest: seq<Product>)

  function Listed(a: Answer): seq<Product> {
    a.stocked + a.rest
  }

  /** fetchStockOrderedPage: the two queries make one page of the products in stock and then the others. */
  method FetchStockOrderedPage(a: Answer, sort: Sort, skip: nat, limit: nat, found: seq<Product>) returns (page: seq<Product>)
    requires ByPrice(sort) ==> Fetches(found, Listed(a))
    ensures page == Slice(Listed(a), skip, limit)
  {
    var inStockCount := |a.stocked|;
    var inStockItems := [];
    if skip < inStockCount { inStockItems := FindSortedPage(a.stocked, sort, skip, limit, found); }
    var remaining := limit - |inStockItems|;
    var others := [];
    if remaining > 0 { others := FindSortedPage(a.rest, sort, Max(0, skip - inStockCount), remaining, found); }
    page := inStockItems + others;
    TwoSlices(a.stocked, a.rest, skip, limit);
  }

  lemma PastFirst(a: seq<Product>, b: seq<Product>, skip: nat, limit: nat)
    requires skip >= |a|
    ensures Slice(b, skip - |a|, limit) == Slice(a + b, skip, limit)
  {
    var start, end := Min(skip, |a| + |b|), Min(skip + limit, |a| + |b|);
    assert (a + b)[start..end] == b[start - |a|..end - |a|];
  }

  lemma WithinFirst(a: seq<Product>, b: seq<Product>, skip: nat, limit: nat)
    requires skip + limit <= |a|
    ensures Slice(a, skip, limit) == Slice(a + b, skip, limit) && |Slice(a, skip, limit)| == limit
  {
    assert (a + b)[skip..skip + limit] == a[skip..skip + limit];
  }

  lemma AcrossBoth(a: seq<Product>, b: seq<Product>, skip: nat, limit: nat)
    requires skip < |a| < skip + limit
    ensures |Slice(a, skip, limit)| == |a| - skip
    ensures Slice(a, skip, limit) + Slice(b, 0, skip + limit - |a|) == Slice(a + b, skip, limit)
  {
    var end := Min(skip + limit, |a| + |b|);
    assert Slice(a, skip, limit) == a[skip..] && Slice(b, 0, skip + limit - |a|) == b[..end - |a|];
    assert (a + b)[skip..end] == a[skip..] + b[..end - |a|];
  }

  /** Two slices, the second taking what the first left, are one slice of the two lists together. */
  lemma TwoSlices(a: seq<Product>, b: seq<Product>, skip: nat, limit: nat)
    ensures var first := if skip < |a| then Slice(a, skip, limit) else [];
            var left := limit - |first|;
      left >= 0 && first + (if left > 0 then Slice(b, Max(0, skip - |a|), left) else []) == Slice(a + b, skip, limit)
  {
    if skip >= |a| {
      PastFirst(a, b, skip, limit);
      assert limit == 0 ==> Slice(a + b, skip, limit) == [];
    } else if skip + limit <= |a| {
      WithinFirst(a, b, skip, limit);
    } else {
      AcrossBoth(a, b, skip, limit);
    }
    hide Slice;
  }

  // ---------------------------------------------------------------------------
  // All pages
  // ---------------------------------------------------------------------------

  /** A list the store may return for a query. */
  ghost predicate Returnable(list: seq<Product>, docs: seq<Product>, sort: Sort) {
    multiset(list) == multiset(docs) && Ordered(list, sort)
  }

  /** The store answers the two queries of one page with these lists. */
  ghost predicate Answering(a: Answer, docs: seq<Product>, sort: Sort) {
    Returnable(a.stocked, Filter(docs, true), sort) && Returnable(a.rest, Filter(docs, false), sort)
  }

  /** Each page is answered anew, and ties may be broken differently each time. */
  ghost predicate Answers(answers: seq<Answer>, docs: seq<Product>, sort: Sort) {
    forall k :: 0 <= k < |answers| ==> Answering(answers[k], docs, sort)
  }

  /** What a customer sees who goes through the pages. */
  function Shown(answers: seq<Answer>, limit: nat): seq<Product> {
    if answers == [] then []
    else
      var n := |answers| - 1;
      Shown(answers[..n], limit) + Slice(Listed(answers[n]), n * limit, limit)
  }

  ghost predicate HalvesUntied(docs: seq<Product>, sort: Sort) {
    Untied(Filter(docs, true), sort) && Untied(Filter(docs, false), sort)
  }

  function StockOrdered(docs: seq<Product>, sort: Sort): seq<Product> {
    Sorted(Filter(docs, true), sort) + Sorted(Filter(docs, false), sort)
  }

  lemma SameTail(a: seq<Product>, b: seq<Product>)
    requires a != [] && b != [] && multiset(a) == multiset(b) && a[0] == b[0]
    ensures multiset(a[1..]) == multiset(b[1..])
  {
    assert a == [a[0]] + a[1..] && b == [b[0]] + b[1..];
    assert multiset(a[1..]) == multiset(a) - multiset{a[0]};
  }

  lemma {:induction false} SameFirst(list: seq<Product>, sorted: seq<Product>, sort: Sort)
    requires multiset(list) == multiset(sorted) && Ordered(sorted, sort) && Ordered(list, sort)
    requires forall p, q :: p in sorted && q in sorted && Tied(p, q, sort) ==> p == q
    ensures list == sorted
    decreases |sorted|
  {
    hide Before;
    if sorted == [] {
      assert |multiset(list)| == |multiset(sorted)|;
    } else {
      assert sorted[0] in multiset(sorted);
      assert sorted[0] in list && sorted == [sorted[0]] + sorted[1..];
      assert list == [list[0]] + list[1..];
      assert list[0] in multiset(list);
      assert list[0] in multiset(sorted);
      assert list[0] in sorted;
      assert list[0] == sorted[0] || Tied(list[0], sorted[0], sort);
      SameTail(list, sorted);
      SameFirst(list[1..], sorted[1..], sort);
    }
  }

  lemma {:induction false} SameProduct(s: seq<Product>, p: Product, q: Product)
    requires UniqueIds(s) && p in s && q in s && p.id == q.id
    ensures p == q
  {
    if p != s[0] && q != s[0] { SameProduct(s[1..], p, q); }
  }

  /** Without ties the store has one list to return. */
  lemma OneListWithoutTies(list: seq<Product>, docs: seq<Product>, sort: Sort)
    requires UniqueIds(docs) && Untied(docs, sort) && Returnable(list, docs, sort)
    ensures list == Sorted(docs, sort)
  {
    var sorted := Sorted(docs, sort);
    SortedOrders(docs, sort);
    SortedMembers(docs, sort);
    forall p, q | p in sorted && q in sorted && Tied(p, q, sort) ensures p == q {
      if p.id == q.id { SameProduct(docs, p, q); }
    }
    hide Before, Tied;
    SameFirst(list, sorted, sort);
  }

  lemma {:induction false} OneListShown(answers: seq<Answer>, list: seq<Product>, limit: nat)
    requires forall k :: 0 <= k < |answers| ==> Listed(answers[k]) == list
    ensures Shown(answers, limit) == FirstPages(list, limit, |answers|)
  {
    if answers != [] { OneListShown(answers[..|answers| - 1], list, limit); }
  }

  lemma {:induction false} Halves(s: seq<Product>)
    ensures multiset(Filter(s, true)) + multiset(Filter(s, false)) == multiset(s)
  {
    if s != [] {
      Halves(s[1..]);
      assert s == [s[0]] + s[1..];
    }
  }

  lemma OrderedMembers(docs: seq<Product>, sort: Sort)
    ensures multiset(StockOrdered(docs, sort)) == multiset(docs) && |StockOrdered(docs, sort)| == |docs|
  {
    SortedMembers(Filter(docs, true), sort);
    SortedMembers(Filter(docs, false), sort);
    Halves(docs);
    hide Sorted, Filter;
    assert |multiset(StockOrdered(docs, sort))| == |multiset(docs)|;
  }

  /** While neither half has a tie, the pages show the products in stock and then the others, each product once. */
  lemma PagesShowEachOnce(docs: seq<Product>, sort: Sort, limit: nat, answers: seq<Answer>)
    requires UniqueIds(docs) && HalvesUntied(docs, sort) && limit > 0
    requires Answers(answers, docs, sort) && |answers| == PageCount(|docs|, limit)
    ensures Shown(answers, limit) == StockOrdered(docs, sort) && multiset(Shown(answers, limit)) == multiset(docs)
  {
    FilterMembers(docs, true);
    FilterMembers(docs, false);
    var list := StockOrdered(docs, sort);
    forall k | 0 <= k < |answers| ensures Listed(answers[k]) == list {
      OneListWithoutTies(answers[k].stocked, Filter(docs, true), sort);
      OneListWithoutTies(answers[k].rest, Filter(docs, false), sort);
      hide Returnable, Untied, Sorted, Filter, UniqueIds;
    }
    hide Answers, HalvesUntied, UniqueIds, Filter, Sorted;
    OneListShown(answers, list, limit);
    OrderedMembers(docs, sort);
    PagesPartition(list, limit);
  }

  // ---------------------------------------------------------------------------
  // Ties
  // ---------------------------------------------------------------------------

  lemma {:induction false} OrderedAt(s: seq<Product>, sort: Sort, i: nat, j: nat)
    requires Ordered(s, sort) && i < j < |s|
    ensures !Before(s[j], s[i], sort)
  {
    if i == 0 {
      assert s[j] in s[1..];
    } else {
      OrderedAt(s[1..], sort, i - 1, j - 1);
    }
  }

  /** A tie in an ordered list is a tie of two neighbours. */
  lemma TiedNeighbours(s: seq<Product>, sort: Sort, i: nat, j: nat)
    requires Ordered(s, sort) && i < j < |s| && Tied(s[i], s[j], sort)
    ensures Tied(s[i], s[i + 1], sort)
  {
    OrderedAt(s, sort, i, i + 1);
    if i + 1 < j {
      OrderedAt(s, sort, i + 1, j);
      Compares(s[i], s[i + 1], s[j], sort);
    }
  }

  /** The list with the products at i and i + 1 in the other order. */
  function Swapped(s: seq<Product>, i: nat): (r: seq<Product>)
    requires i + 1 < |s|
    ensures |r| == |s| && r[i + 1] == s[i]
  {
    s[..i] + [s[i + 1], s[i]] + s[i + 2..]
  }

  lemma SwapFirst(s: seq<Product>, sort: Sort)
    requires Ordered(s, sort) && |s| >= 2 && Tied(s[0], s[1], sort)
    ensures Ordered(Swapped(s, 0), sort)
  {
    hide Before;
    var rest := s[2..];
    var u := Swapped(s, 0);
    assert s[1..][1..] == rest && u[1..][1..] == rest && u[1..][0] == s[0] && s[1..][0] == s[1];
    assert forall q :: q in rest ==> q in s[1..];
    assert u[1..] == [s[0]] + rest;
  }

  lemma SwapBag(s: seq<Product>, i: nat)
    requires i + 1 < |s|
    ensures multiset(Swapped(s, i)) == multiset(s)
    ensures forall q :: q in Swapped(s, i) <==> q in s
  {
    assert s == s[..i] + [s[i], s[i + 1]] + s[i + 2..];
    assert forall q :: q in Swapped(s, i) <==> q in multiset(Swapped(s, i));
  }

  lemma {:induction false} SwapOrdered(s: seq<Product>, sort: Sort, i: nat)
    requires Ordered(s, sort) && i + 1 < |s| && Tied(s[i], s[i + 1], sort)
    ensures Ordered(Swapped(s, i), sort)
  {
    hide Before, Tied;
    if i == 0 {
      SwapFirst(s, sort);
    } else {
      SwapOrdered(s[1..], sort, i - 1);
      SwapBag(s[1..], i - 1);
      assert Swapped(s, i)[1..] == Swapped(s[1..], i - 1);
      hide Swapped;
    }
  }

  /** At one product a page, page k shows the product at k of its list. */
  lemma {:induction false} ShownAt(answers: seq<Answer>, k: nat)
    requires k < |answers| && forall j :: 0 <= j < |answers| ==> |Listed(answers[j])| >= |answers|
    ensures |Shown(answers, 1)| == |answers| && Shown(answers, 1)[k] == Listed(answers[k])[k]
  {
    var n := |answers| - 1;
    if n > 0 { ShownAt(answers[..n], if k < n then k else 0); }
    assert Slice(Listed(answers[n]), n * 1, 1) == [Listed(answers[n])[n]];
  }

  /** Two answers that differ in the order of one tie: the first for the pages up to it, the second from then on. */
  function TwoAnswers(a: Answer, b: Answer, t: nat, n: nat): (answers: seq<Answer>)
    ensures |answers| == n && forall k :: 0 <= k < n ==> answers[k] == if k <= t then a else b
  {
    seq(n, k => if k <= t then a else b)
  }

  lemma TwiceInBag(s: seq<Product>, i: nat)
    requires i + 1 < |s| && s[i] == s[i + 1]
    ensures multiset(s)[s[i]] >= 2
  {
    assert s == s[..i] + [s[i], s[i + 1]] + s[i + 2..];
  }

  lemma {:induction false} OnceInBag(s: seq<Product>, p: Product)
    requires UniqueIds(s)
    ensures multiset(s)[p] <= 1
  {
    if s != [] {
      OnceInBag(s[1..], p);
      assert s == [s[0]] + s[1..];
      if p == s[0] { assert p !in s[1..]; }
    }
  }

  /** The tied product at t of both lists is shown on page t and again on the next. */
  lemma ShownTwice(docs: seq<Product>, a: Answer, b: Answer, t: nat)
    requires UniqueIds(docs) && |Listed(a)| == |Listed(b)| == |docs| && t + 1 < |docs|
    requires Listed(b)[t + 1] == Listed(a)[t]
    ensures multiset(Shown(TwoAnswers(a, b, t, |docs|), 1)) != multiset(docs)
  {
    var answers := TwoAnswers(a, b, t, |docs|);
    ShownAt(answers, t);
    ShownAt(answers, t + 1);
    hide Shown, UniqueIds, Listed;
    TwiceInBag(Shown(answers, 1), t);
    OnceInBag(docs, Listed(a)[t]);
  }

  lemma TieInList(list: seq<Product>, half: seq<Product>, sort: Sort) returns (i: nat)
    requires Returnable(list, half, sort) && !Untied(half, sort)
    ensures i + 1 < |list| && Tied(list[i], list[i + 1], sort)
  {
    var p, q :| p in half && q in half && p.id != q.id && Tied(p, q, sort);
    assert p in multiset(list) && q in multiset(list);
    hide Before;
    var j: nat, k: nat :| j < |list| && k < |list| && list[j] == p && list[k] == q;
    i := if j < k then j else k;
    TiedNeighbours(list, sort, i, if j < k then k else j);
  }

  lemma AnswersDiffer(docs: seq<Product>, sort: Sort, a: Answer, b: Answer, t: nat) returns (answers: seq<Answer>)
    requires UniqueIds(docs) && Answering(a, docs, sort) && Answering(b, docs, sort)
    requires |Listed(a)| == |Listed(b)| == |docs| && t + 1 < |docs| && Listed(b)[t + 1] == Listed(a)[t]
    ensures Answers(answers, docs, sort) && |answers| == |docs| && multiset(Shown(answers, 1)) != multiset(docs)
  {
    answers := TwoAnswers(a, b, t, |docs|);
    ShownTwice(docs, a, b, t);
    hide Shown, UniqueIds, Listed, Returnable, Filter;
  }

  /** A tie within one half of the products gives two orders of it that the store may return. */
  lemma TieGivesTwoOrders(half: seq<Product>, sort: Sort) returns (list: seq<Product>, i: nat)
    requires !Untied(half, sort)
    ensures Returnable(list, half, sort) && |list| == |half| && i + 1 < |list|
    ensures Returnable(Swapped(list, i), half, sort)
  {
    list := Sorted(half, sort);
    SortedReturnable(half, sort);
    hide Untied, Tied, Sorted, Ordered;
    i := TieInList(list, half, sort);
    SwapOrdered(list, sort, i);
    SwapBag(list, i);
  }

  lemma SortedReturnable(half: seq<Product>, sort: Sort)
    ensures Returnable(Sorted(half, sort), half, sort) && |Sorted(half, sort)| == |half|
  {
    SortedOrders(half, sort);
    SortedMembers(half, sort);
    hide Sorted, Ordered;
    assert |multiset(Sorted(half, sort))| == |multiset(half)|;
  }

  lemma HalvesCount(docs: seq<Product>)
    ensures |Filter(docs, true)| + |Filter(docs, false)| == |docs|
  {
    Halves(docs);
    assert |multiset(Filter(docs, true)) + multiset(Filter(docs, false))| == |multiset(docs)|;
  }

  lemma ListedHead(a: Answer, i: nat)
    requires i < |a.stocked|
    ensures |Listed(a)| == |a.stocked| + |a.rest| && Listed(a)[i] == a.stocked[i]
  {
  }

  lemma ListedAt(a: Answer, i: nat)
    requires i < |a.rest|
    ensures |Listed(a)| == |a.stocked| + |a.rest| && Listed(a)[|a.stocked| + i] == a.rest[i]
  {
  }

  lemma TieInStock(docs: seq<Product>, sort: Sort) returns (answers: seq<Answer>)
    requires UniqueIds(docs) && !Untied(Filter(docs, true), sort)
    ensures Answers(answers, docs, sort) && |answers| == |docs| && docs != [] && multiset(Shown(answers, 1)) != multiset(docs)
  {
    HalvesCount(docs);
    SortedReturnable(Filter(docs, false), sort);
    var rest := Sorted(Filter(docs, false), sort);
    var list, i := TieGivesTwoOrders(Filter(docs, true), sort);
    hide Sorted, Filter, Returnable, UniqueIds, Untied, Shown, Swapped;
    var a, b := Answer(list, rest), Answer(Swapped(list, i), rest);
    hide Listed;
    ListedHead(a, i);
    ListedHead(b, i + 1);
    answers := AnswersDiffer(docs, sort, a, b, i);
  }

  lemma TieOutOfStock(docs: seq<Product>, sort: Sort) returns (answers: seq<Answer>)
    requires UniqueIds(docs) && !Untied(Filter(docs, false), sort)
    ensures Answers(answers, docs, sort) && |answers| == |docs| && docs != [] && multiset(Shown(answers, 1)) != multiset(docs)
  {
    HalvesCount(docs);
    SortedReturnable(Filter(docs, true), sort);
    var stocked := Sorted(Filter(docs, true), sort);
    var list, i := TieGivesTwoOrders(Filter(docs, false), sort);
    hide Sorted, Filter, Returnable, UniqueIds, Untied, Shown, Swapped, Listed;
    var a, b, t := Answer(stocked, list), Answer(stocked, Swapped(list, i)), |stocked| + i;
    ListedAt(a, i);
    ListedAt(b, i + 1);
    answers := AnswersDiffer(docs, sort, a, b, t);
  }

  /** With a tie in one half there are answers, at one product a page, that do not show each product once. */
  lemma TieShowsTwice(docs: seq<Product>, sort: Sort) returns (answers: seq<Answer>)
    requires UniqueIds(docs) && !HalvesUntied(docs, sort)
    ensures Answers(answers, docs, sort) && |answers| == PageCount(|docs|, 1)
    ensures multiset(Shown(answers, 1)) != multiset(docs)
  {
    hide Answers, UniqueIds, Untied, Shown;
    if !Untied(Filter(docs, true), sort) {
      answers := TieInStock(docs, sort);
    } else {
      answers := TieOutOfStock(docs, sort);
    }
  }

  ghost predicate EachShownOnce(docs: seq<Product>, sort: Sort) {
    forall limit: nat, answers :: limit > 0 && Answers(answers, docs, sort) && |answers| == PageCount(|docs|, limit) ==>
      multiset(Shown(answers, limit)) == multiset(docs)
  }

  /** However the store answers and whatever the page size, the pages show each product once exactly when neither half has a tie. */
  lemma EachShownOnceIff(docs: seq<Product>, sort: Sort)
    requires UniqueIds(docs)
    ensures EachShownOnce(docs, sort) <==> HalvesUntied(docs, sort)
  {
    if HalvesUntied(docs, sort) {
      forall limit: nat, answers | limit > 0 && Answers(answers, docs, sort) && |answers| == PageCount(|docs|, limit)
        ensures multiset(Shown(answers, limit)) == multiset(docs)
      {
        PagesShowEachOnce(docs, sort, limit, answers);
      }
    } else {
      var answers := TieShowsTwice(docs, sort);
      assert Answers(answers, docs, sort) && |answers| == PageCount(|docs|, 1);
    }
  }
}
