/**
 * Manual stock adjustments (stockController.js adjustStock) and order sales
 * (stockService.js reserveStockForItems) on one product, with the self-heal both end in and
 * the history row both append. SKUs and names stand for their trimmed lower-case form.
 * Each request is one step here; ProductEdit takes the single writes apart.
 */
module StockDesk {
  import opened Wrappers
  import StockSum

  /** A variant; its stock may be untracked. */
  datatype Item = Item(sku: string, name: string, stock: Option<int>)

  datatype Shelf = Shelf(stock: int, items: seq<Item>)

  function Level(v: Item): int {
    v.stock.GetOr(0)
  }

  function Levels(items: seq<Item>): (levels: seq<int>)
    ensures |levels| == |items| && forall i :: 0 <= i < |items| ==> levels[i] == Level(items[i])
  {
    seq(|items|, i requires 0 <= i < |items| => Level(items[i]))
  }

  function Total(items: seq<Item>): (t: int)
    ensures t >= 0
  {
    StockSum.Sum(Levels(items))
  }

  function Sum(xs: seq<int>): int {
    if xs == [] then 0 else Sum(xs[..|xs| - 1]) + xs[|xs| - 1]
  }

  // ---------------------------------------------------------------------------
  // Requests
  // ---------------------------------------------------------------------------

  /** The quantity of an adjustment is None when it is not a whole number. */
  datatype Request =
    | Adjust(kind: string, quantity: Option<int>, wanted: string)
    | Sell(sku: string, units: nat)

  datatype Answer = Done | BadKind | BadQuantity | NoTarget | TooFew(available: int)

  /** What a request does to the shelf, and the history rows it appends. */
  datatype Effect = Effect(shelf: Shelf, rows: seq<int>, answer: Answer)

  function Size(q: Option<int>): int {
    match q case None => 0 case Some(n) => if n < 0 then -n else n
  }

  predicate Called(v: Item, wanted: string) {
    v.sku == wanted || v.name == wanted
  }

  function FirstNamed(items: seq<Item>, wanted: string): (k: nat)
    ensures k <= |items|
    ensures k < |items| ==> Called(items[k], wanted)
    ensures forall j :: 0 <= j < k ==> !Called(items[j], wanted)
  {
    if items == [] || Called(items[0], wanted) then 0
    else 1 + FirstNamed(items[1..], wanted)
  }

  /** The variant to adjust: the one named, or the only one. It is never guessed. */
  function Target(items: seq<Item>, wanted: string): (k: Option<nat>)
    ensures k.Some? ==> k.value < |items| && (|items| == 1 || Called(items[k.value], wanted))
    ensures k.Some? && wanted != "" ==> Called(items[k.value], wanted) && forall j :: 0 <= j < k.value ==> !Called(items[j], wanted)
    ensures k.None? <==> if wanted == "" then |items| != 1 else forall j :: 0 <= j < |items| ==> !Called(items[j], wanted)
  {
    var k := FirstNamed(items, wanted);
    if wanted != "" then (if k < |items| then Some(k) else None)
    else if |items| == 1 then Some(0)
    else None
  }

  function Shift(p: Shelf, k: nat, delta: int): Shelf
    requires k < |p.items|
  {
    Shelf(p.stock + delta, p.items[k := p.items[k].(stock := Some(Level(p.items[k]) + delta))])
  }

  function Healed(p: Shelf): Shelf {
    if p.items == [] then p else p.(stock := Total(p.items))
  }

  function Adjusted(p: Shelf, kind: string, quantity: Option<int>, wanted: string): Effect {
    var size := Size(quantity);
    var delta := if kind == "Restock" then size else -size;
    if kind != "Restock" && kind != "Correction" then Effect(p, [], BadKind)
    else if size <= 0 then Effect(p, [], BadQuantity)
    else if p.items == [] then
      if delta < 0 && p.stock < size then Effect(p, [], TooFew(Max(0, p.stock)))
      else Effect(Shelf(p.stock + delta, []), [delta], Done)
    else match Target(p.items, wanted)
      case None => Effect(p, [], NoTarget)
      case Some(k) =>
        var level := Level(p.items[k]);
        if delta < 0 && level < size
        then Effect(p.(items := p.items[k := p.items[k].(stock := Some(level))]), [], TooFew(Max(0, level)))
        else Effect(Healed(Shift(p, k, delta)), [delta], Done)
  }

  function FirstWith(items: seq<Item>, sku: string, units: nat): (k: nat)
    ensures k <= |items|
    ensures k < |items| ==> items[k].stock.Some? && Level(items[k]) >= units
  {
    if items == [] || (items[0].sku == sku && items[0].stock.Some? && Level(items[0]) >= units) then 0
    else 1 + FirstWith(items[1..], sku, units)
  }

  predicate HasUntracked(items: seq<Item>, sku: string) {
    exists v :: v in items && v.sku == sku && v.stock.None?
  }

  function Sold(p: Shelf, sku: string, units: nat): Effect {
    var k := FirstWith(p.items, sku, units);
    if sku != "" && k < |p.items| then Effect(Healed(Shift(p, k, -(units as int))), [-(units as int)], Done)
    else if p.stock >= units && (sku == "" || HasUntracked(p.items, sku))
    then Effect(Healed(p.(stock := p.stock - units)), [-(units as int)], Done)
    else Effect(p, [], TooFew(p.stock))
  }

  function Serve(p: Shelf, r: Request): Effect {
    match r
    case Adjust(kind, quantity, wanted) => Adjusted(p, kind, quantity, wanted)
    case Sell(sku, units) => Sold(p, sku, units)
  }

  function Run(p: Shelf, rs: seq<Request>): Shelf
    decreases |rs|
  {
    if rs == [] then p else Run(Serve(p, rs[0]).shelf, rs[1..])
  }

  function History(p: Shelf, rs: seq<Request>): seq<int>
    decreases |rs|
  {
    if rs == [] then [] else Serve(p, rs[0]).rows + History(Serve(p, rs[0]).shelf, rs[1..])
  }

  // ---------------------------------------------------------------------------
  // What every run keeps
  // ---------------------------------------------------------------------------

  ghost predicate Balanced(p: Shelf) {
    && p.stock >= 0
    && (forall v :: v in p.items ==> Level(v) >= 0)
    && (p.items != [] ==> p.stock == Total(p.items))
  }

  lemma TotalChange(items: seq<Item>, k: nat, v: Item)
    requires k < |items|
    ensures Total(items[k := v]) == Total(items) - Max(0, Level(items[k])) + Max(0, Level(v))
  {
    assert Levels(items[k := v]) == Levels(items)[k := Level(v)];
    StockSum.SumChange(Levels(items), k, Level(v));
  }

  /** One increment of a variant and the master together leaves the self-heal nothing to do. */
  lemma ShiftIsHealed(p: Shelf, k: nat, delta: int)
    requires Balanced(p) && k < |p.items| && Level(p.items[k]) + delta >= 0
    ensures Balanced(Shift(p, k, delta)) && Healed(Shift(p, k, delta)) == Shift(p, k, delta)
  {
    TotalChange(p.items, k, Shift(p, k, delta).items[k]);
  }

  lemma HealMeansUnbalanced(p: Shelf, k: nat, delta: int)
    requires k < |p.items| && (delta >= 0 || Level(p.items[k]) + delta >= 0)
    requires Healed(Shift(p, k, delta)) != Shift(p, k, delta)
    ensures !Balanced(p)
  {
    if Balanced(p) { ShiftIsHealed(p, k, delta); }
  }

  /** The units a sale writes to history without taking them from any variant. */
  function Slipped(p: Shelf, r: Request): nat {
    match r
    case Adjust(_, _, _) => 0
    case Sell(sku, units) =>
      if p.items != [] && p.stock >= units
         && (sku == "" || (FirstWith(p.items, sku, units) == |p.items| && HasUntracked(p.items, sku)))
      then units else 0
  }

  function SlippedBy(p: Shelf, rs: seq<Request>): nat
    decreases |rs|
  {
    if rs == [] then 0 else Slipped(p, rs[0]) + SlippedBy(Serve(p, rs[0]).shelf, rs[1..])
  }

  lemma SumOne(x: int)
    ensures Sum([x]) == x
  {
  }

  lemma {:induction false} SumConcat(a: seq<int>, b: seq<int>)
    ensures Sum(a + b) == Sum(a) + Sum(b)
  {
    if b == [] {
      assert a + b == a;
    } else {
      SumConcat(a, b[..|b| - 1]);
      assert (a + b)[..|a + b| - 1] == a + b[..|b| - 1];
    }
  }

  lemma AdjustStep(p: Shelf, r: Request)
    requires Balanced(p) && r.Adjust?
    ensures var e := Serve(p, r); Balanced(e.shelf) && e.shelf.stock == p.stock + Sum(e.rows)
  {
    var e := Serve(p, r);
    if e.rows != [] { SumOne(e.rows[0]); }
    if p.items != [] && Target(p.items, r.wanted).Some? {
      var k := Target(p.items, r.wanted).value;
      var level := Level(p.items[k]);
      TotalChange(p.items, k, p.items[k].(stock := Some(level)));
      if e.answer.Done? { ShiftIsHealed(p, k, e.rows[0]); }
    }
  }

  lemma SellStep(p: Shelf, r: Request)
    requires Balanced(p) && r.Sell?
    ensures var e := Serve(p, r); Balanced(e.shelf) && e.shelf.stock == p.stock + Sum(e.rows) + Slipped(p, r)
  {
    var e := Serve(p, r);
    if e.rows != [] { SumOne(e.rows[0]); }
    var k := FirstWith(p.items, r.sku, r.units);
    if r.sku != "" && k < |p.items| { ShiftIsHealed(p, k, -(r.units as int)); }
  }

  /**
   * In every run the master stock stays the sum of the non-negative variant stocks and is
   * the initial stock plus the history, plus what slipped.
   */
  lemma {:induction false} RunBalances(p: Shelf, rs: seq<Request>)
    requires Balanced(p)
    ensures Balanced(Run(p, rs))
    ensures Run(p, rs).stock == p.stock + Sum(History(p, rs)) + SlippedBy(p, rs)
    decreases |rs|
  {
    if rs != [] {
      if rs[0].Adjust? { AdjustStep(p, rs[0]); } else { SellStep(p, rs[0]); }
      RunBalances(Serve(p, rs[0]).shelf, rs[1..]);
      SumConcat(Serve(p, rs[0]).rows, History(Serve(p, rs[0]).shelf, rs[1..]));
    }
  }

  ghost predicate NothingSlips(p: Shelf, rs: seq<Request>)
    decreases |rs|
  {
    rs != [] ==> Slipped(p, rs[0]) == 0 && NothingSlips(Serve(p, rs[0]).shelf, rs[1..])
  }

  /** The history explains the stock exactly when no sale on a product with variants left the variants alone. */
  lemma {:induction false} HistoryExplainsStockIff(p: Shelf, rs: seq<Request>)
    requires Balanced(p)
    ensures Run(p, rs).stock == p.stock + Sum(History(p, rs)) <==> NothingSlips(p, rs)
    decreases |rs|
  {
    RunBalances(p, rs);
    NothingSlipsIff(p, rs);
  }

  lemma {:induction false} NothingSlipsIff(p: Shelf, rs: seq<Request>)
    ensures SlippedBy(p, rs) == 0 <==> NothingSlips(p, rs)
    decreases |rs|
  {
    if rs != [] { NothingSlipsIff(Serve(p, rs[0]).shelf, rs[1..]); }
  }

  /** Adjustments alone never slip. */
  lemma {:induction false} AdjustmentsAreExplained(p: Shelf, rs: seq<Request>)
    requires Balanced(p)
    requires forall k :: 0 <= k < |rs| ==> rs[k].Adjust?
    ensures Balanced(Run(p, rs)) && Run(p, rs).stock == p.stock + Sum(History(p, rs))
    decreases |rs|
  {
    if rs != [] {
      AdjustStep(p, rs[0]);
      AdjustmentsAreExplained(Serve(p, rs[0]).shelf, rs[1..]);
      SumConcat(Serve(p, rs[0]).rows, History(Serve(p, rs[0]).shelf, rs[1..]));
    }
  }

  /** Two units of an untracked variant sold: the self-heal gives them back to the master stock. */
  lemma SaleUndone()
    ensures var p := Shelf(5, [Item("a", "A", Some(5)), Item("b", "B", None)]);
      Balanced(p) && Serve(p, Sell("b", 2)) == Effect(p, [-2], Done)
  {
  }

  // ---------------------------------------------------------------------------
  // The handlers
  // ---------------------------------------------------------------------------

  class Store {
    var stock: int
    var items: seq<Item>
    var history: seq<int>

    constructor (p: Shelf)
      ensures Now() == p && history == []
    {
      stock, items, history := p.stock, p.items, [];
    }

    function Now(): Shelf
      reads this
    {
      Shelf(stock, items)
    }

    /** variants.find: the first with this SKU or name. */
    method Named(wanted: string) returns (k: nat)
      ensures k == FirstNamed(items, wanted)
    {
      k := 0;
      while k < |items| && !Called(items[k], wanted)
        invariant k <= |items| && k + FirstNamed(items[k..], wanted) == FirstNamed(items, wanted)
      {
        k := k + 1;
      }
    }

    /** Recompute the master stock and write it if it differs. */
    method SelfHeal() returns (wrote: bool)
      modifies this`stock
      ensures Now() == Healed(old(Now()))
      ensures wrote <==> Healed(old(Now())) != old(Now())
    {
      var sum, i := 0, 0;
      while i < |items|
        invariant 0 <= i <= |items| && sum + Total(items[i..]) == Total(items)
      {
        assert Levels(items[i..])[1..] == Levels(items[i + 1..]);
        sum := sum + Max(0, Level(items[i]));
        i := i + 1;
      }
      wrote := items != [] && stock != sum;
      if wrote { stock := sum; }
    }

    method ChooseVariant(wanted: string) returns (k: Option<nat>)
      ensures k == Target(items, wanted)
    {
      if wanted != "" {
        var found := Named(wanted);
        return if found < |items| then Some(found) else None;
      }
      k := if |items| == 1 then Some(0) else None;
    }

    /** The writes of an adjustment on one variant: start from 0, one guarded increment, self-heal. */
    method Increment(k: nat, delta: int) returns (taken: bool, healed: bool)
      requires k < |items|
      modifies this`stock, this`items
      ensures taken <==> delta >= 0 || old(Level(items[k])) + delta >= 0
      ensures Now() == if taken then Healed(Shift(old(Now()), k, delta))
                       else old(Now()).(items := old(items)[k := old(items[k]).(stock := Some(old(Level(items[k]))))])
      ensures healed <==> taken && Healed(Shift(old(Now()), k, delta)) != Shift(old(Now()), k, delta)
    {
      if items[k].stock.None? { items := items[k := items[k].(stock := Some(0))]; }
      var level := Level(items[k]);
      taken, healed := delta >= 0 || level >= -delta, false;
      if taken {
        items, stock := items[k := items[k].(stock := Some(level + delta))], stock + delta;
        assert Now() == Shift(old(Now()), k, delta);
        healed := SelfHeal();
      } else {
        assert items == old(items)[k := items[k]];
      }
    }

    method AdjustStock(kind: string, quantity: Option<int>, wanted: string) returns (answer: Answer, healed: bool)
      modifies this
      ensures var e := Serve(old(Now()), Adjust(kind, quantity, wanted));
        Now() == e.shelf && history == old(history) + e.rows && answer == e.answer
      ensures healed ==> !old(Balanced(Now()))
    {
      healed := false;
      if kind != "Restock" && kind != "Correction" { return BadKind, false; }
      var size := Size(quantity);
      if size <= 0 { return BadQuantity, false; }
      var delta := if kind == "Restock" then size else -size;
      if items == [] {
        if delta < 0 && stock < size { return TooFew(Max(0, stock)), false; }
        stock := stock + delta;
      } else {
        var target := ChooseVariant(wanted);
        if target.None? { return NoTarget, false; }
        ghost var p := Now();
        var taken: bool;
        taken, healed := Increment(target.value, delta);
        if !taken { return TooFew(Max(0, Level(items[target.value]))), false; }
        if healed { HealMeansUnbalanced(p, target.value, delta); }
      }
      history := history + [delta];
      answer := Done;
    }
  }
}
