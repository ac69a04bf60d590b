/**
 * One customer's cart (cartController.js): add, replace, change a quantity, remove, clear.
 * The products are read at each request; they may change between requests.
 */
module Cart {
  import opened Wrappers
  import StockSum

  /** A variant SKU, trimmed: blank, or letters written in some case. */
  datatype Sku = Blank | Code(letters: nat, spelling: nat)

  predicate SameLetters(a: Sku, b: Sku) {
    if a.Code? && b.Code? then a.letters == b.letters else a.Blank? && b.Blank?
  }

  datatype Variant = Variant(sku: Sku, soldOut: bool, stock: Option<int>)

  datatype Product = Product(seller: Option<nat>, visible: bool, soldOut: bool, stock: Option<int>, variants: seq<Variant>)

  type Catalog = map<nat, Product>

  /** A cart line; `seen` is not stored, it is the stock available when the line was last written. */
  datatype Line = Line(product: nat, sku: Sku, quantity: int, seen: int)

  // ---------------------------------------------------------------------------
  // Stock
  // ---------------------------------------------------------------------------

  function MasterStock(p: Product): int {
    if p.stock.Some? then Max(0, p.stock.value) else 999
  }

  function FirstVariant(vs: seq<Variant>, sku: Sku): (k: nat)
    ensures k <= |vs|
    ensures k < |vs| ==> SameLetters(vs[k].sku, sku)
    ensures forall j :: 0 <= j < k ==> !SameLetters(vs[j].sku, sku)
  {
    if vs == [] || SameLetters(vs[0].sku, sku) then 0 else 1 + FirstVariant(vs[1..], sku)
  }

  /** getAvailableStock */
  function Available(p: Product, sku: Sku): int {
    var k := FirstVariant(p.variants, sku);
    if p.soldOut then 0
    else if sku.Blank? || k == |p.variants| then MasterStock(p)
    else if p.variants[k].soldOut then 0
    else if p.variants[k].stock.Some? then Max(0, p.variants[k].stock.value)
    else MasterStock(p)
  }

  function Levels(vs: seq<Variant>): (levels: seq<int>)
    ensures |levels| == |vs| && forall i :: 0 <= i < |vs| ==> levels[i] == vs[i].stock.GetOr(0)
  {
    seq(|vs|, i requires 0 <= i < |vs| => vs[i].stock.GetOr(0))
  }

  lemma {:induction false} OneOfSum(levels: seq<int>, k: nat)
    requires k < |levels|
    ensures Max(0, levels[k]) <= StockSum.Sum(levels)
  {
    if k > 0 { OneOfSum(levels[1..], k - 1); }
  }

  /** While the master stock is the sum of the variants, no SKU offers more than the product has. */
  lemma AvailableWithinMaster(p: Product, sku: Sku)
    requires p.variants != [] ==> p.stock == Some(StockSum.Sum(Levels(p.variants)))
    ensures 0 <= Available(p, sku) <= MasterStock(p)
  {
    var k := FirstVariant(p.variants, sku);
    if k < |p.variants| { OneOfSum(Levels(p.variants), k); }
  }

  predicate Visible(c: Catalog, product: nat) {
    product in c && c[product].visible
  }

  // ---------------------------------------------------------------------------
  // Requests
  // ---------------------------------------------------------------------------

  datatype Request =
    | Add(product: nat, sku: Sku, quantity: int)
    | Replace(product: nat, sku: Sku, quantity: int)
    | Update(product: nat, sku: Sku, quantity: int)
    | Remove(product: nat, sku: Sku)
    | Clear

  predicate IsLine(l: Line, product: nat, sku: Sku) {
    l.product == product && l.sku == sku
  }

  /** The line an addition goes to: same product, same SKU letter by letter. */
  function ExactLine(items: seq<Line>, product: nat, sku: Sku): (k: nat)
    ensures k <= |items|
    ensures k < |items| ==> IsLine(items[k], product, sku)
    ensures forall j :: 0 <= j < k ==> !IsLine(items[j], product, sku)
  {
    if items == [] || IsLine(items[0], product, sku) then 0 else 1 + ExactLine(items[1..], product, sku)
  }

  predicate Loose(l: Line, product: nat, sku: Sku, fallback: bool) {
    l.product == product && if fallback then sku.Blank? || l.sku.Blank? else SameLetters(l.sku, sku)
  }

  function LooseLine(items: seq<Line>, product: nat, sku: Sku, fallback: bool): (k: nat)
    ensures k <= |items|
    ensures k < |items| ==> Loose(items[k], product, sku, fallback)
    ensures forall j :: 0 <= j < k ==> !Loose(items[j], product, sku, fallback)
  {
    if items == [] || Loose(items[0], product, sku, fallback) then 0 else 1 + LooseLine(items[1..], product, sku, fallback)
  }

  /** The line a quantity change goes to: by letters, else any line of the product if either SKU is blank. */
  function UpdatedLine(items: seq<Line>, product: nat, sku: Sku): (k: nat)
    ensures k <= |items|
    ensures k < |items| ==> items[k].product == product && (SameLetters(items[k].sku, sku) || sku.Blank? || items[k].sku.Blank?)
    ensures forall j :: 0 <= j < |items| && items[j].product == product && SameLetters(items[j].sku, sku) ==>
              k <= j && SameLetters(items[k].sku, sku)
    ensures k == |items| ==> forall j :: 0 <= j < |items| ==> !Loose(items[j], product, sku, true)
  {
    var k := LooseLine(items, product, sku, false);
    if k < |items| then k else LooseLine(items, product, sku, true)
  }

  /** The seller check of an addition: only the first line is looked at, and only if its product is still there. */
  predicate SellerConflict(items: seq<Line>, c: Catalog, seller: Option<nat>) {
    && items != [] && seller.Some?
    && items[0].product in c && c[items[0].product].seller.Some?
    && c[items[0].product].seller != seller
  }

  predicate Removed(l: Line, product: nat, sku: Sku) {
    l.product == product && (sku.Blank? || SameLetters(l.sku, sku) || l.sku.Blank?)
  }

  function Without(items: seq<Line>, product: nat, sku: Sku): seq<Line> {
    if items == [] then []
    else if Removed(items[0], product, sku) then Without(items[1..], product, sku)
    else [items[0]] + Without(items[1..], product, sku)
  }

  /** Saving refuses a quantity below 1. */
  function Serve(items: seq<Line>, c: Catalog, r: Request): seq<Line> {
    match r
    case Add(product, sku, quantity) =>
      if !Visible(c, product) || SellerConflict(items, c, c[product].seller) then items
      else
        var k := ExactLine(items, product, sku);
        var total := (if k < |items| then items[k].quantity else 0) + quantity;
        var stock := Available(c[product], sku);
        if stock <= 0 || total > stock || total < 1 then items
        else if k < |items| then items[k := Line(product, sku, total, stock)]
        else items + [Line(product, sku, total, stock)]
    case Replace(product, sku, quantity) =>
      if !Visible(c, product) then items
      else
        var stock := Available(c[product], sku);
        if stock <= 0 || quantity > stock || quantity < 1 then items else [Line(product, sku, quantity, stock)]
    case Update(product, sku, quantity) =>
      var k := UpdatedLine(items, product, sku);
      if k == |items| then items
      else if quantity <= 0 then items[..k] + items[k + 1..]
      else if !Visible(c, product) then items[k := items[k].(quantity := quantity)]
      else
        var stock := Available(c[product], if items[k].sku.Blank? then sku else items[k].sku);
        if stock <= 0 || quantity > stock then items
        else items[k := items[k].(quantity := quantity, seen := stock)]
    case Remove(product, sku) => Without(items, product, sku)
    case Clear => []
  }

  // ---------------------------------------------------------------------------
  // What requests keep
  // ---------------------------------------------------------------------------

  ghost predicate UniqueLines(items: seq<Line>) {
    forall i, j :: 0 <= i < j < |items| ==> !(items[i].product == items[j].product && items[i].sku == items[j].sku)
  }

  ghost predicate InStock(items: seq<Line>) {
    forall i :: 0 <= i < |items| ==> 1 <= items[i].quantity <= items[i].seen
  }

  /** The seller of each product, which never changes. */
  type Owners = map<nat, nat>

  ghost predicate OneSeller(items: seq<Line>, owners: Owners) {
    && (forall i :: 0 <= i < |items| ==> items[i].product in owners)
    && (forall i, j :: 0 <= i < j < |items| ==> owners[items[i].product] == owners[items[j].product])
  }

  /** The catalog tells the owner of each product it has. */
  ghost predicate Honest(c: Catalog, owners: Owners) {
    forall p :: p in c ==> p in owners && c[p].seller == Some(owners[p])
  }

  lemma {:induction false} WithoutSubsequence(items: seq<Line>, product: nat, sku: Sku)
    ensures forall l :: l in Without(items, product, sku) <==> l in items && !Removed(l, product, sku)
    ensures UniqueLines(items) ==> UniqueLines(Without(items, product, sku))
  {
    if items != [] {
      WithoutSubsequence(items[1..], product, sku);
      assert items == [items[0]] + items[1..];
      if UniqueLines(items) {
        assert UniqueLines(items[1..]);
        var rest := Without(items[1..], product, sku);
        forall i | 0 <= i < |rest| ensures rest[i] in items[1..] {}
        assert forall l :: l in items[1..] ==> !(l.product == items[0].product && l.sku == items[0].sku);
      }
    }
  }

  /** Lines stay unique on product and SKU, whatever is asked and whatever the products are. */
  lemma LinesStayUnique(items: seq<Line>, c: Catalog, r: Request)
    requires UniqueLines(items)
    ensures UniqueLines(Serve(items, c, r))
  {
    hide Available, LooseLine, MasterStock;
    if r.Remove? {
      WithoutSubsequence(items, r.product, r.sku);
    } else if r.Add? {
      AddStaysUnique(items, c, r);
      hide Serve;
    } else if r.Update? {
      UpdateStaysUnique(items, c, r);
      hide Serve;
    }
  }

  lemma AddStaysUnique(items: seq<Line>, c: Catalog, r: Request)
    requires UniqueLines(items) && r.Add?
    ensures UniqueLines(Serve(items, c, r))
  {
    hide Available, SellerConflict, Visible;
    var k := ExactLine(items, r.product, r.sku);
    var after := Serve(items, c, r);
    assert after == items
      || (k < |items| && after == items[k := after[k]] && IsLine(after[k], r.product, r.sku))
      || (k == |items| && after == items + [after[k]] && IsLine(after[k], r.product, r.sku));
    hide Serve;
  }

  lemma UpdateStaysUnique(items: seq<Line>, c: Catalog, r: Request)
    requires UniqueLines(items) && r.Update?
    ensures UniqueLines(Serve(items, c, r))
  {
    hide Available, Visible;
    var k := UpdatedLine(items, r.product, r.sku);
    var after := Serve(items, c, r);
    assert after == items
      || (k < |items| && after == items[..k] + items[k + 1..])
      || (k < |items| && after == items[k := after[k]] && IsLine(after[k], items[k].product, items[k].sku));
    hide Serve, UpdatedLine;
  }

  /** A quantity change on a product that is no longer visible, past the stock last seen. */
  predicate Overtakes(items: seq<Line>, c: Catalog, r: Request) {
    && r.Update? && r.quantity > 0 && !Visible(c, r.product)
    && UpdatedLine(items, r.product, r.sku) < |items|
    && r.quantity > items[UpdatedLine(items, r.product, r.sku)].seen
  }

  lemma UpdateKeepsStockIff(items: seq<Line>, c: Catalog, r: Request)
    requires InStock(items) && r.Update?
    ensures InStock(Serve(items, c, r)) <==> !Overtakes(items, c, r)
  {
    hide Available, LooseLine;
    var k := UpdatedLine(items, r.product, r.sku);
    hide UpdatedLine;
    var after := Serve(items, c, r);
    if k < |items| && r.quantity <= 0 {
      forall i | 0 <= i < |after| ensures 1 <= after[i].quantity <= after[i].seen {
        assert after[i] == items[if i < k then i else i + 1];
      }
    } else if k < |items| {
      assert after == items || after == items[k := after[k]];
    }
  }

  lemma {:induction false} RemoveKeepsStock(items: seq<Line>, product: nat, sku: Sku)
    requires InStock(items)
    ensures InStock(Without(items, product, sku))
  {
    if items != [] {
      RemoveKeepsStock(items[1..], product, sku);
    }
  }

  /** A quantity goes past the stock last seen exactly when it is changed on a product that is no longer visible. */
  lemma StockKeptIff(items: seq<Line>, c: Catalog, r: Request)
    requires InStock(items)
    ensures InStock(Serve(items, c, r)) <==> !Overtakes(items, c, r)
  {
    if r.Update? {
      UpdateKeepsStockIff(items, c, r);
    } else if r.Remove? {
      RemoveKeepsStock(items, r.product, r.sku);
    }
  }

  /** An addition that is accepted behind a first line whose product is gone and had another seller. */
  predicate Mixes(items: seq<Line>, c: Catalog, r: Request, owners: Owners) {
    && r.Add? && Visible(c, r.product) && 1 <= r.quantity <= Available(c[r.product], r.sku)
    && items != [] && items[0].product !in c
    && items[0].product in owners && r.product in owners && owners[items[0].product] != owners[r.product]
  }

  lemma AddSellers(items: seq<Line>, c: Catalog, r: Request, owners: Owners)
    requires OneSeller(items, owners) && Honest(c, owners) && r.Add?
    ensures OneSeller(Serve(items, c, r), owners) <==> !Mixes(items, c, r, owners)
  {
    hide Available;
    var k := ExactLine(items, r.product, r.sku);
    var after := Serve(items, c, r);
    if after != items || Mixes(items, c, r, owners) {
      assert k < |items| ==> owners[items[k].product] == owners[items[0].product];
      assert k < |items| ==> after == items[k := after[k]] && after[k].product == r.product;
      assert k == |items| ==> after == items + [after[|items|]] && after[|items|].product == r.product;
    }
  }

  lemma UpdateSellers(items: seq<Line>, c: Catalog, r: Request, owners: Owners)
    requires OneSeller(items, owners) && r.Update?
    ensures OneSeller(Serve(items, c, r), owners)
  {
    hide Available, LooseLine;
    var k := UpdatedLine(items, r.product, r.sku);
    hide UpdatedLine;
    var after := Serve(items, c, r);
    forall i | 0 <= i < |after|
      ensures after[i].product in owners && owners[after[i].product] == owners[items[0].product]
    {
      assert after[i].product == items[if r.quantity <= 0 && i >= k && |after| < |items| then i + 1 else i].product;
    }
  }

  /** An addition mixes sellers exactly when it fits the stock, the first line's product is gone and the sellers differ. */
  lemma OneSellerKeptIff(items: seq<Line>, c: Catalog, r: Request, owners: Owners)
    requires OneSeller(items, owners) && Honest(c, owners)
    ensures OneSeller(Serve(items, c, r), owners) <==> !Mixes(items, c, r, owners)
  {
    var after := Serve(items, c, r);
    match r {
      case Remove(product, sku) =>
        WithoutSubsequence(items, product, sku);
        forall l | l in after ensures l.product in owners && owners[l.product] == owners[items[0].product] {
          assert l in items;
        }
        assert OneSeller(after, owners);
      case Add(product, sku, quantity) => AddSellers(items, c, r, owners);
      case Update(product, sku, quantity) => UpdateSellers(items, c, r, owners);
      case _ =>
    }
  }

  // ---------------------------------------------------------------------------
  // Runs
  // ---------------------------------------------------------------------------

  /** A request and the products as it finds them. */
  datatype Visit = Visit(catalog: Catalog, request: Request)

  function Run(items: seq<Line>, vs: seq<Visit>): seq<Line>
    decreases |vs|
  {
    if vs == [] then items else Run(Serve(items, vs[0].catalog, vs[0].request), vs[1..])
  }

  /** Every cart of the run has quantities within the stock seen and one seller. */
  ghost predicate SoundThroughout(items: seq<Line>, vs: seq<Visit>, owners: Owners)
    decreases |vs|
  {
    && InStock(items) && OneSeller(items, owners)
    && (vs != [] ==> SoundThroughout(Serve(items, vs[0].catalog, vs[0].request), vs[1..], owners))
  }

  /** No request overtakes the stock seen or mixes sellers. */
  ghost predicate NeverUpset(items: seq<Line>, vs: seq<Visit>, owners: Owners)
    decreases |vs|
  {
    vs != [] ==>
      && !Overtakes(items, vs[0].catalog, vs[0].request)
      && !Mixes(items, vs[0].catalog, vs[0].request, owners)
      && NeverUpset(Serve(items, vs[0].catalog, vs[0].request), vs[1..], owners)
  }

  /** A cart stays sound throughout exactly while no request does one of the two. */
  lemma {:induction false} SoundThroughoutIff(items: seq<Line>, vs: seq<Visit>, owners: Owners)
    requires InStock(items) && OneSeller(items, owners)
    requires forall i :: 0 <= i < |vs| ==> Honest(vs[i].catalog, owners)
    ensures SoundThroughout(items, vs, owners) <==> NeverUpset(items, vs, owners)
    decreases |vs|
  {
    if vs != [] {
      StockKeptIff(items, vs[0].catalog, vs[0].request);
      OneSellerKeptIff(items, vs[0].catalog, vs[0].request, owners);
      var after := Serve(items, vs[0].catalog, vs[0].request);
      hide Serve, Overtakes, Mixes, InStock, OneSeller, Honest;
      if InStock(after) && OneSeller(after, owners) { SoundThroughoutIff(after, vs[1..], owners); }
    }
  }

  /** The products in the cart are neither deleted nor hidden. */
  ghost predicate Present(items: seq<Line>, c: Catalog) {
    forall i :: 0 <= i < |items| ==> Visible(c, items[i].product)
  }

  ghost predicate AllPresent(items: seq<Line>, vs: seq<Visit>, owners: Owners)
    decreases |vs|
  {
    vs != [] ==>
      && Honest(vs[0].catalog, owners)
      && Present(items, vs[0].catalog)
      && AllPresent(Serve(items, vs[0].catalog, vs[0].request), vs[1..], owners)
  }

  lemma PresentIsSafe(items: seq<Line>, c: Catalog, r: Request, owners: Owners)
    requires Present(items, c)
    ensures !Overtakes(items, c, r) && !Mixes(items, c, r, owners)
  {
    hide Available, LooseLine;
  }

  /** While the products in it stay visible, a cart keeps unique lines, one seller and quantities within the stock seen. */
  lemma {:induction false} CartStaysSound(items: seq<Line>, vs: seq<Visit>, owners: Owners)
    requires UniqueLines(items) && InStock(items) && OneSeller(items, owners) && AllPresent(items, vs, owners)
    ensures UniqueLines(Run(items, vs)) && InStock(Run(items, vs)) && OneSeller(Run(items, vs), owners)
    decreases |vs|
  {
    if vs != [] {
      PresentIsSafe(items, vs[0].catalog, vs[0].request, owners);
      LinesStayUnique(items, vs[0].catalog, vs[0].request);
      StockKeptIff(items, vs[0].catalog, vs[0].request);
      OneSellerKeptIff(items, vs[0].catalog, vs[0].request, owners);
      CartStaysSound(Serve(items, vs[0].catalog, vs[0].request), vs[1..], owners);
    }
  }

  /** The first product was deleted: the next addition brings in a second seller. */
  lemma DeletedFirstProductMixesSellers()
    ensures var p := Product(Some(2), true, false, Some(5), []);
            var items := [Line(10, Blank, 1, 5), Line(11, Blank, 1, 5)];
            var owners: Owners := map[10 := 1, 11 := 1, 20 := 2];
            var c: Catalog := map[11 := p.(seller := Some(1)), 20 := p];
      && OneSeller(items, owners) && Honest(c, owners)
      && Serve(items, c, Add(20, Blank, 1)) == items + [Line(20, Blank, 1, 5)]
      && !OneSeller(items + [Line(20, Blank, 1, 5)], owners)
  {
    var items := [Line(10, Blank, 1, 5), Line(11, Blank, 1, 5)];
    var owners: Owners := map[10 := 1, 11 := 1, 20 := 2];
    var after := items + [Line(20, Blank, 1, 5)];
    assert owners[after[1].product] != owners[after[2].product];
  }

  // ---------------------------------------------------------------------------
  // The handlers
  // ---------------------------------------------------------------------------

  class CartDesk {
    var items: seq<Line>

    constructor ()
      ensures items == [] && UniqueLines(items) && InStock(items)
    {
      items := [];
    }

    method FindExact(product: nat, sku: Sku) returns (k: nat)
      ensures k == ExactLine(items, product, sku)
    {
      k := 0;
      while k < |items| && !IsLine(items[k], product, sku)
        invariant k <= |items| && k + ExactLine(items[k..], product, sku) == ExactLine(items, product, sku)
      {
        k := k + 1;
      }
    }

    method AddToCart(c: Catalog, product: nat, sku: Sku, quantity: int) returns (ok: bool)
      modifies this
      ensures items == Serve(old(items), c, Add(product, sku, quantity))
      ensures !ok ==> items == old(items)
    {
      ok := false;
      if !Visible(c, product) { return; }
      if SellerConflict(items, c, c[product].seller) { return; }
      var stock := Available(c[product], sku);
      if stock <= 0 { return; }
      var k := FindExact(product, sku);
      var total := (if k < |items| then items[k].quantity else 0) + quantity;
      if total > stock || total < 1 { return; }
      ok := true;
      if k < |items| {
        items := items[k := Line(product, sku, total, stock)];
      } else {
        items := items + [Line(product, sku, total, stock)];
      }
    }

    /** removeFromCart: backwards, so that a splice does not move the lines still to look at. */
    method RemoveFromCart(product: nat, sku: Sku) returns (removed: nat)
      modifies this
      ensures items == Without(old(items), product, sku)
      ensures removed == |old(items)| - |items|
    {
      removed := 0;
      var i := |items|;
      ghost var was := items;
      while i > 0
        invariant 0 <= i <= |was|
        invariant items == was[..i] + Without(was[i..], product, sku)
        invariant removed == |was| - |items|
      {
        i := i - 1;
        assert was[i..][1..] == was[i + 1..];
        if Removed(items[i], product, sku) {
          items := items[..i] + items[i + 1..];
          removed := removed + 1;
        }
      }
    }

    method FindLoose(product: nat, sku: Sku, fallback: bool) returns (k: nat)
      ensures k == LooseLine(items, product, sku, fallback)
    {
      k := 0;
      while k < |items| && !Loose(items[k], product, sku, fallback)
        invariant k <= |items| && k + LooseLine(items[k..], product, sku, fallback) == LooseLine(items, product, sku, fallback)
      {
        k := k + 1;
      }
    }

    method UpdateQuantity(c: Catalog, product: nat, sku: Sku, quantity: int) returns (ok: bool)
      modifies this
      ensures items == Serve(old(items), c, Update(product, sku, quantity))
      ensures !ok ==> items == old(items)
    {
      ok := false;
      var k := FindLoose(product, sku, false);
      if k == |items| { k := FindLoose(product, sku, true); }
      if k == |items| { return; }
      var line := items[k].(quantity := quantity);
      if quantity > 0 && Visible(c, product) {
        var stock := Available(c[product], if items[k].sku.Blank? then sku else items[k].sku);
        if stock <= 0 || quantity > stock { return; }
        line := line.(seen := stock);
      }
      ok, items := true, items[k := line];
      if quantity <= 0 { items := items[..k] + items[k + 1..]; }
    }
  }
}
