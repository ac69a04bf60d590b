/**
 * Additions to one cart that overlap (cartController.addToCart): each reads the cart and saves
 * it later. A new line is pushed; a line that was found is written at its position, which the
 * store refuses if lines were added or removed since (the document version).
 */
module CartOverlap {
  import opened Wrappers
  import opened Cart

  /** An accepted addition with the cart as it read it; `stock` is what was available. */
  datatype Addition = Addition(product: nat, sku: Sku, quantity: int, stock: int, read: seq<Line>, version: nat, saved: bool)

  datatype Shelf = Shelf(items: seq<Line>, version: nat, additions: seq<Addition>)

  datatype Event =
    | Ask(catalog: Catalog, product: nat, sku: Sku, quantity: int)
    | Save(v: nat)
    | Drop(product: nat, sku: Sku)
    | Change(product: nat, sku: Sku, quantity: int)

  function LineQuantity(items: seq<Line>, product: nat, sku: Sku): int {
    var k := ExactLine(items, product, sku);
    if k < |items| then items[k].quantity else 0
  }

  /** The checks of an addition on the cart and the products it read. */
  predicate Accepts(items: seq<Line>, c: Catalog, product: nat, sku: Sku, quantity: int) {
    && Visible(c, product) && !SellerConflict(items, c, c[product].seller)
    && 0 < Available(c[product], sku)
    && 1 <= LineQuantity(items, product, sku) + quantity <= Available(c[product], sku)
  }

  predicate Pushes(v: Addition) {
    ExactLine(v.read, v.product, v.sku) == |v.read|
  }

  /** The save finds the lines where it read them. */
  predicate Fits(s: Shelf, v: Addition) {
    Pushes(v) || (v.version == s.version && |v.read| == |s.items|)
  }

  function Saved(s: Shelf, v: Addition): seq<Line>
    requires Fits(s, v)
  {
    var k := ExactLine(v.read, v.product, v.sku);
    if Pushes(v) then s.items + [Line(v.product, v.sku, v.quantity, v.stock)]
    else s.items[k := s.items[k].(quantity := v.read[k].quantity + v.quantity, seen := v.stock)]
  }

  predicate Saves(s: Shelf, e: Event) {
    e.Save? && e.v < |s.additions| && !s.additions[e.v].saved && Fits(s, s.additions[e.v])
  }

  function Apply(s: Shelf, e: Event): Shelf {
    match e
    case Ask(c, product, sku, quantity) =>
      if Accepts(s.items, c, product, sku, quantity)
      then s.(additions := s.additions + [Addition(product, sku, quantity, Available(c[product], sku), s.items, s.version, false)])
      else s
    case Save(v) =>
      if !Saves(s, e) then s
      else
        Shelf(Saved(s, s.additions[v]), if Pushes(s.additions[v]) then s.version + 1 else s.version,
              s.additions[v := s.additions[v].(saved := true)])
    case Drop(product, sku) =>
      if Without(s.items, product, sku) == s.items then s
      else s.(items := Without(s.items, product, sku), version := s.version + 1)
    case Change(product, sku, quantity) =>
      var k := UpdatedLine(s.items, product, sku);
      if k < |s.items| && quantity > 0 then s.(items := s.items[k := s.items[k].(quantity := quantity)]) else s
  }

  function Run(s: Shelf, es: seq<Event>): Shelf
    decreases |es|
  {
    if es == [] then s else Run(Apply(s, es[0]), es[1..])
  }

  predicate SameLines(a: seq<Line>, b: seq<Line>) {
    |a| == |b| && forall i :: 0 <= i < |a| ==> IsLine(a[i], b[i].product, b[i].sku)
  }

  /** An addition that has seen the current version has seen the current lines. */
  ghost predicate Versioned(s: Shelf) {
    forall v :: 0 <= v < |s.additions| && !s.additions[v].saved ==>
      && s.additions[v].version <= s.version
      && (s.additions[v].version == s.version ==> SameLines(s.additions[v].read, s.items))
  }

  lemma VersionedStays(s: Shelf, e: Event)
    requires Versioned(s)
    ensures Versioned(Apply(s, e))
  {
    hide ExactLine, Accepts, Without, Available, UpdatedLine;
  }

  // ---------------------------------------------------------------------------
  // One line for each product and SKU
  // ---------------------------------------------------------------------------

  /** A line is pushed although the cart has got one meanwhile. */
  predicate Doubles(s: Shelf, e: Event) {
    Saves(s, e) && Pushes(s.additions[e.v]) && ExactLine(s.items, s.additions[e.v].product, s.additions[e.v].sku) < |s.items|
  }

  /** Lines stay unique exactly when no line is pushed that the cart has got since it was read. */
  lemma UniqueKeptIff(s: Shelf, e: Event)
    requires UniqueLines(s.items) && Versioned(s)
    ensures UniqueLines(Apply(s, e).items) <==> !Doubles(s, e)
  {
    match e
    case Ask(_, _, _, _) =>
    case Drop(product, sku) => WithoutSubsequence(s.items, product, sku);
    case Change(product, sku, _) => hide UpdatedLine;
    case Save(v) =>
      if Saves(s, e) {
        var addition := s.additions[v];
        var k := ExactLine(s.items, addition.product, addition.sku);
        var after := Saved(s, addition);
        if Pushes(addition) {
          if k < |s.items| {
            assert after[k].product == after[|s.items|].product && after[k].sku == after[|s.items|].sku;
          }
        } else {
          assert forall i :: 0 <= i < |after| ==> IsLine(after[i], s.items[i].product, s.items[i].sku);
        }
      }
  }

  ghost predicate NeverDoubles(s: Shelf, es: seq<Event>)
    decreases |es|
  {
    es != [] ==> !Doubles(s, es[0]) && NeverDoubles(Apply(s, es[0]), es[1..])
  }

  ghost predicate UniqueThroughout(s: Shelf, es: seq<Event>)
    decreases |es|
  {
    UniqueLines(s.items) && (es != [] ==> UniqueThroughout(Apply(s, es[0]), es[1..]))
  }

  lemma {:induction false} UniqueThroughoutIff(s: Shelf, es: seq<Event>)
    requires UniqueLines(s.items) && Versioned(s)
    ensures UniqueThroughout(s, es) <==> NeverDoubles(s, es)
    decreases |es|
  {
    hide Apply, UniqueLines, Doubles, Versioned;
    if es != [] {
      UniqueKeptIff(s, es[0]);
      VersionedStays(s, es[0]);
      if UniqueLines(Apply(s, es[0]).items) { UniqueThroughoutIff(Apply(s, es[0]), es[1..]); }
    }
  }

  // ---------------------------------------------------------------------------
  // No addition is lost
  // ---------------------------------------------------------------------------

  /** What the cart holds of a product and SKU, over all lines. */
  function Held(items: seq<Line>, product: nat, sku: Sku): int {
    if items == [] then 0
    else (if IsLine(items[0], product, sku) then items[0].quantity else 0) + Held(items[1..], product, sku)
  }

  lemma {:induction false} HeldSet(items: seq<Line>, k: nat, l: Line)
    requires k < |items| && IsLine(items[k], l.product, l.sku)
    ensures Held(items[k := l], l.product, l.sku) == Held(items, l.product, l.sku) - items[k].quantity + l.quantity
  {
    if k > 0 {
      HeldSet(items[1..], k - 1, l);
      assert items[k := l][1..] == items[1..][k - 1 := l];
    } else {
      assert items[k := l][1..] == items[1..];
    }
  }

  lemma {:induction false} HeldPush(items: seq<Line>, l: Line)
    ensures Held(items + [l], l.product, l.sku) == Held(items, l.product, l.sku) + l.quantity
  {
    if items == [] {
      assert ([] + [l])[1..] == [];
    } else {
      HeldPush(items[1..], l);
      assert (items + [l])[1..] == items[1..] + [l];
    }
  }

  /** A saved addition adds its quantity exactly when it pushes or the line still has the quantity it read. */
  lemma AddsIff(s: Shelf, e: Event)
    requires Versioned(s) && Saves(s, e)
    ensures var v := s.additions[e.v];
      var k := ExactLine(v.read, v.product, v.sku);
      Held(Apply(s, e).items, v.product, v.sku) == Held(s.items, v.product, v.sku) + v.quantity
      <==> Pushes(v) || s.items[k].quantity == v.read[k].quantity
  {
    var v := s.additions[e.v];
    var k := ExactLine(v.read, v.product, v.sku);
    if Pushes(v) {
      HeldPush(s.items, Line(v.product, v.sku, v.quantity, v.stock));
    } else {
      HeldSet(s.items, k, s.items[k].(quantity := v.read[k].quantity + v.quantity, seen := v.stock));
    }
    hide Held;
  }

  // ---------------------------------------------------------------------------
  // Two overlapping additions
  // ---------------------------------------------------------------------------

  lemma RunTwo(s: Shelf, a: Event, b: Event)
    ensures Run(s, [a, b]) == Apply(Apply(s, a), b)
  {
    hide Apply;
    assert [a, b][1..] == [b] && [b][1..] == [];
    assert Run(Apply(s, a), [b]) == Run(Apply(Apply(s, a), b), []);
  }

  lemma {:induction false} RunConcat(s: Shelf, a: seq<Event>, b: seq<Event>)
    ensures Run(s, a + b) == Run(Run(s, a), b)
    decreases |a|
  {
    hide Apply;
    if a == [] {
      assert a + b == b;
    } else {
      RunConcat(Apply(s, a[0]), a[1..], b);
      assert (a + b)[1..] == a[1..] + b;
    }
  }

  lemma ServesAccepted(items: seq<Line>, c: Catalog, product: nat, sku: Sku, quantity: int)
    ensures var k := ExactLine(items, product, sku);
      Serve(items, c, Add(product, sku, quantity)) ==
      if !Accepts(items, c, product, sku, quantity) then items
      else if k < |items| then items[k := Line(product, sku, items[k].quantity + quantity, Available(c[product], sku))]
      else items + [Line(product, sku, quantity, Available(c[product], sku))]
  {
    hide Available, SellerConflict;
  }

  lemma AskThenSave(s: Shelf, c: Catalog, product: nat, sku: Sku, quantity: int)
    requires Accepts(s.items, c, product, sku, quantity)
    ensures var k := ExactLine(s.items, product, sku);
      Apply(Apply(s, Ask(c, product, sku, quantity)), Save(|s.additions|)).items ==
      if k < |s.items| then s.items[k := Line(product, sku, s.items[k].quantity + quantity, Available(c[product], sku))]
      else s.items + [Line(product, sku, quantity, Available(c[product], sku))]
  {
    hide Available, SellerConflict, Accepts;
  }

  lemma RefusedStays(s: Shelf, c: Catalog, product: nat, sku: Sku, quantity: int)
    requires !Accepts(s.items, c, product, sku, quantity)
    ensures Apply(Apply(s, Ask(c, product, sku, quantity)), Save(|s.additions|)) == s
  {
    hide Accepts;
  }

  /** With nothing in between, the two calls are the addition of the cart's specification. */
  lemma AloneServes(s: Shelf, c: Catalog, product: nat, sku: Sku, quantity: int)
    ensures Run(s, [Ask(c, product, sku, quantity), Save(|s.additions|)]).items == Serve(s.items, c, Add(product, sku, quantity))
  {
    hide *;
    RunTwo(s, Ask(c, product, sku, quantity), Save(|s.additions|));
    ServesAccepted(s.items, c, product, sku, quantity);
    if Accepts(s.items, c, product, sku, quantity) {
      AskThenSave(s, c, product, sku, quantity);
    } else {
      RefusedStays(s, c, product, sku, quantity);
    }
  }

  /** One unit of the product, asked for while nine are available. */
  function OneMore(product: nat): Event {
    Ask(map[product := Product(Some(1), true, false, Some(9), [])], product, Blank, 1)
  }

  function Waiting(product: nat, read: seq<Line>): Addition {
    Addition(product, Blank, 1, 9, read, 0, false)
  }

  lemma BothAsk(items: seq<Line>, product: nat)
    requires items == [] || items == [Line(product, Blank, 1, 9)]
    ensures Run(Shelf(items, 0, []), [OneMore(product), OneMore(product)])
         == Shelf(items, 0, [Waiting(product, items), Waiting(product, items)])
  {
    RunTwo(Shelf(items, 0, []), OneMore(product), OneMore(product));
    hide Run;
    assert [] + [Waiting(product, items)] == [Waiting(product, items)];
  }

  /** Both found no line: the cart gets two. */
  lemma BothPush(product: nat)
    ensures var l := Line(product, Blank, 1, 9);
      Run(Shelf([], 0, []), [OneMore(product), OneMore(product)] + [Save(0), Save(1)]).items == [l, l]
  {
    BothAsk([], product);
    RunConcat(Shelf([], 0, []), [OneMore(product), OneMore(product)], [Save(0), Save(1)]);
    RunTwo(Shelf([], 0, [Waiting(product, []), Waiting(product, [])]), Save(0), Save(1));
    hide Run;
  }

  /** Both found the line with one unit: two more were added, and the cart holds two. */
  lemma BothRaise(product: nat)
    ensures var l := Line(product, Blank, 1, 9);
      Run(Shelf([l], 0, []), [OneMore(product), OneMore(product)] + [Save(0), Save(1)]).items == [l.(quantity := 2)]
  {
    var l := Line(product, Blank, 1, 9);
    BothAsk([l], product);
    RunConcat(Shelf([l], 0, []), [OneMore(product), OneMore(product)], [Save(0), Save(1)]);
    RunTwo(Shelf([l], 0, [Waiting(product, [l]), Waiting(product, [l])]), Save(0), Save(1));
    hide Run;
  }
}
