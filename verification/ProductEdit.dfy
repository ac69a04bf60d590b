/**
 * Seller edits of one product, interleaved with sales, stock adjustments and moderation
 * (productController.js updateProduct, keepSavedStock, approveProduct, rejectProduct;
 * the stock writes of stockController.js and stockService.js).
 *
 * Every awaited database call is one step. Prices, names, photos and search play no part.
 * SKUs are compared trimmed and without case, so a sku here stands for that form.
 */
module ProductEdit {
  import opened Wrappers
  import StockSum

  // ---------------------------------------------------------------------------
  // The stored product
  // ---------------------------------------------------------------------------

  /**
   * A stored variant. `line` is the account its stock belongs to: it is not stored by the
   * program, it says which earlier variant this one is the continuation of.
   */
  datatype Variant = Variant(id: Option<nat>, sku: string, stock: Option<int>, line: nat)

  datatype Status = Draft | Pending | Approved | Rejected

  /** `stamp` is updatedAt; `line` is the account of `stock` while there are no variants. */
  datatype Product = Product(sku: string, line: nat, stock: int, variants: seq<Variant>,
                             status: Status, imaged: bool, stamp: nat)

  function Level(v: Variant): int {
    v.stock.GetOr(0)
  }

  function Levels(vs: seq<Variant>): (levels: seq<int>)
    ensures |levels| == |vs| && forall i :: 0 <= i < |vs| ==> levels[i] == Level(vs[i])
  {
    seq(|vs|, i requires 0 <= i < |vs| => Level(vs[i]))
  }

  function Total(vs: seq<Variant>): (t: int)
    ensures t >= 0
  {
    StockSum.Sum(Levels(vs))
  }

  lemma TotalCons(v: Variant, vs: seq<Variant>)
    ensures Total([v] + vs) == Max(0, Level(v)) + Total(vs)
    ensures Total([v]) == Max(0, Level(v))
  {
    assert Levels([v] + vs) == [Level(v)] + Levels(vs);
    StockSum.SumCons(Level(v), Levels(vs));
    assert Levels([v]) == [Level(v)] + [];
    StockSum.SumCons(Level(v), []);
  }

  /** What an edit compares its variants with: a product without variants counts as one variant. */
  function Saved(p: Product): seq<Variant> {
    if p.variants != [] then p.variants else [Variant(None, p.sku, Some(p.stock), p.line)]
  }

  // ---------------------------------------------------------------------------
  // keepSavedStock
  // ---------------------------------------------------------------------------

  /**
   * A variant of an edit. `from` is not sent: it is the account the server has copied `stock`
   * from, None while the stock is what the seller typed.
   */
  datatype Form = Form(id: Option<nat>, sku: string, stock: int, from: Option<nat>)

  /** The forms as they arrive. */
  function Typed(forms: seq<Form>): (fs: seq<Form>)
    ensures |fs| == |forms|
    ensures forall i :: 0 <= i < |fs| ==> fs[i] == forms[i].(from := None)
  {
    seq(|forms|, i requires 0 <= i < |forms| => forms[i].(from := None))
  }

  predicate Matches(form: Form, v: Variant) {
    || (form.id.Some? && form.id == v.id)
    || (form.sku != "" && form.sku == v.sku)
  }

  /** The position of the first saved variant the form matches, or |saved|. */
  function Find(form: Form, saved: seq<Variant>): (k: nat)
    ensures k <= |saved|
  {
    if saved == [] then 0
    else if Matches(form, saved[0]) then 0
    else 1 + Find(form, saved[1..])
  }

  /** Each form is matched with the first saved variant that has its id or its SKU, if there is one. */
  lemma {:induction false} FindIsFirst(form: Form, saved: seq<Variant>)
    ensures Find(form, saved) < |saved| ==> Matches(form, saved[Find(form, saved)])
    ensures forall j :: 0 <= j < Find(form, saved) ==> !Matches(form, saved[j])
  {
    if saved != [] && !Matches(form, saved[0]) { FindIsFirst(form, saved[1..]); }
  }

  /** The stock an edit writes for a form: the saved stock, or whatever the form carries. */
  function Kept(form: Form, saved: seq<Variant>): int {
    var k := Find(form, saved);
    if k < |saved| then Level(saved[k]) else Max(0, form.stock)
  }

  /** The account that stock belongs to: the matched variant's, or the one copied earlier; none if the seller typed it. */
  function Account(form: Form, saved: seq<Variant>): Option<nat> {
    var k := Find(form, saved);
    if k < |saved| then Some(saved[k].line) else form.from
  }

  /** The variant an edit writes; `next` is the id of a new one and the account of typed stock. */
  function Keep(form: Form, saved: seq<Variant>, next: nat): Variant {
    Variant(Some(form.id.GetOr(next)), form.sku, Some(Kept(form, saved)), Account(form, saved).GetOr(next))
  }

  function KeepAll(forms: seq<Form>, saved: seq<Variant>, next: nat): (vs: seq<Variant>)
    ensures |vs| == |forms|
  {
    if forms == [] then [] else [Keep(forms[0], saved, next)] + KeepAll(forms[1..], saved, next + 1)
  }

  /** The edit's own copy of the forms afterwards: their stock is overwritten. */
  function Refill(forms: seq<Form>, saved: seq<Variant>): (fs: seq<Form>)
    ensures |fs| == |forms|
  {
    if forms == [] then [] else [Refilled(forms[0], saved)] + Refill(forms[1..], saved)
  }

  function Refilled(form: Form, saved: seq<Variant>): Form {
    form.(stock := Kept(form, saved), from := Account(form, saved))
  }

  /** The accounts opened by an edit: one for each form with typed stock. */
  function Openings(forms: seq<Form>, saved: seq<Variant>, next: nat): map<nat, int> {
    if forms == [] then map[]
    else
      var rest := Openings(forms[1..], saved, next + 1);
      if Account(forms[0], saved).Some? then rest else rest[next := Max(0, forms[0].stock)]
  }

  /** No two forms continue one account. */
  predicate Apart(forms: seq<Form>, saved: seq<Variant>) {
    forall i, j :: 0 <= i < j < |forms| && Account(forms[i], saved).Some?
      ==> Account(forms[i], saved) != Account(forms[j], saved)
  }

  predicate SkusDistinct(forms: seq<Form>) {
    forall i, j :: 0 <= i < j < |forms| && forms[i].sku != "" ==> forms[i].sku != forms[j].sku
  }

  /** savedVariants.find(...), and the form with the stock to write. */
  method FindSaved(form: Form, saved: seq<Variant>) returns (filled: Form)
    ensures filled == Refilled(form, saved)
  {
    var k := 0;
    while k < |saved| && !Matches(form, saved[k])
      invariant k <= |saved|
      invariant k + Find(form, saved[k..]) == Find(form, saved)
    {
      k := k + 1;
    }
    filled := if k < |saved| then form.(stock := Level(saved[k]), from := Some(saved[k].line))
              else form.(stock := Max(0, form.stock));
  }

  lemma FillOne(forms: seq<Form>, saved: seq<Variant>, next: nat, i: nat, filled: seq<Form>)
    requires i < |forms|
    ensures filled + Refill(forms[i..], saved)
         == filled + [Refilled(forms[i], saved)] + Refill(forms[i + 1..], saved)
    ensures Total(KeepAll(forms[i..], saved, next + i))
         == Max(0, Kept(forms[i], saved)) + Total(KeepAll(forms[i + 1..], saved, next + i + 1))
  {
    assert forms[i..][0] == forms[i] && forms[i..][1..] == forms[i + 1..];
    TotalCons(Keep(forms[i], saved, next + i), KeepAll(forms[i + 1..], saved, next + i + 1));
  }

  lemma {:induction false} SameTotal(forms: seq<Form>, saved: seq<Variant>, m: nat, n: nat)
    ensures Total(KeepAll(forms, saved, m)) == Total(KeepAll(forms, saved, n))
  {
    if forms != [] {
      TotalCons(Keep(forms[0], saved, m), KeepAll(forms[1..], saved, m + 1));
      TotalCons(Keep(forms[0], saved, n), KeepAll(forms[1..], saved, n + 1));
      SameTotal(forms[1..], saved, m + 1, n + 1);
    }
  }

  /** keepSavedStock as written: fill in the stock of every form, then add up. */
  method KeepSavedStock(forms: seq<Form>, saved: seq<Variant>) returns (filled: seq<Form>, stock: int)
    ensures filled == Refill(forms, saved)
    ensures forall next: nat :: Total(KeepAll(forms, saved, next)) == stock
  {
    filled, stock := [], 0;
    var i := 0;
    while i < |forms|
      invariant 0 <= i <= |forms|
      invariant filled + Refill(forms[i..], saved) == Refill(forms, saved)
      invariant stock + Total(KeepAll(forms[i..], saved, i)) == Total(KeepAll(forms, saved, 0))
    {
      var kept := FindSaved(forms[i], saved);
      FillOne(forms, saved, 0, i, filled);
      filled := filled + [kept];
      stock := stock + Max(0, kept.stock);
      i := i + 1;
    }
    forall next: nat ensures Total(KeepAll(forms, saved, next)) == stock { SameTotal(forms, saved, 0, next); }
  }

  // ---------------------------------------------------------------------------
  // The machine
  // ---------------------------------------------------------------------------

  /**
   * What a seller sends. `imaged` says whether the edit leaves the product with a photo,
   * if it touches photos; `review` is the setting that edits need approval.
   */
  datatype Edit = Edit(forms: Option<seq<Form>>, sku: Option<string>, imaged: Option<bool>, review: bool)

  /** An edit in flight: `status` is decided once, `seen` is the product as last read. */
  datatype Work =
    | Writing(edit: Edit, status: Status, seen: Product, attempt: nat)
    | Missed(edit: Edit, status: Status, attempt: nat)
    | Landed
    | Refused

  datatype Target = OwnStock | ById(id: nat) | BySku(sku: string)

  datatype Event =
    | New(forms: seq<Form>, sku: string, stock: int, admin: bool, imaged: bool, review: bool, at: nat)
    | Open(e: nat, edit: Edit)
    | Write(e: nat, at: nat)
    | Reread(e: nat)
    | Move(target: Target, delta: int, at: nat)
    | Track(id: nat, at: nat)
    | Approve(at: nat)
    | Reject(at: nat)
    | Remove

  /**
   * The stored product and its history: what each account was opened with, every stock
   * movement on it, whether an admin approval stands, and whether the product was created yet.
   * `next` numbers new accounts.
   */
  datatype Core = Core(doc: Option<Product>, opening: map<nat, int>, log: seq<(nat, int)>, next: nat, cleared: bool, born: bool)

  datatype World = World(core: Core, edits: map<nat, Work>)

  /** The stock moved on an account. */
  function Net(log: seq<(nat, int)>, line: nat): int {
    if log == [] then 0
    else Net(log[..|log| - 1], line) + if log[|log| - 1].0 == line then log[|log| - 1].1 else 0
  }

  function Verdict(edit: Edit, p: Product): Status {
    if !edit.imaged.GetOr(p.imaged) then Draft
    else if edit.review || p.status != Approved then Pending
    else Approved
  }

  function Arrived(edit: Edit): Edit {
    if edit.forms.Some? then edit.(forms := Some(Typed(edit.forms.value))) else edit
  }

  /** The edit with the stock it read filled in. */
  function Filled(edit: Edit, p: Product): Edit {
    if edit.forms.Some? then edit.(forms := Some(Refill(edit.forms.value, Saved(p)))) else edit
  }

  /** The update an edit writes, computed from the product it read, on the product stored. */
  function Landing(edit: Edit, status: Status, seen: Product, doc: Product, next: nat, at: nat): Product {
    var p := doc.(sku := edit.sku.GetOr(doc.sku), status := status, imaged := edit.imaged.GetOr(doc.imaged), stamp := at);
    match edit.forms
    case None => p.(stock := seen.stock)
    case Some(forms) =>
      if forms == [] then p.(variants := [], stock := seen.stock, line := if doc.variants == [] then doc.line else next)
      else
        var vs := KeepAll(forms, Saved(seen), next);
        p.(variants := vs, stock := Total(vs))
  }

  /** An edit without variants goes on with the product's own account, or opens one with the stock stored. */
  function Opens(edit: Edit, seen: Product, doc: Product, next: nat): map<nat, int> {
    match edit.forms
    case None => map[]
    case Some(forms) =>
      if forms != [] then Openings(forms, Saved(seen), next)
      else if doc.variants == [] then map[] else map[next := doc.stock]
  }

  /** The stock of the variants that give way to the product's own stock leaves their accounts. */
  function Closings(vs: seq<Variant>): (moves: seq<(nat, int)>)
    ensures |moves| == |vs| && forall i :: 0 <= i < |vs| ==> moves[i] == (vs[i].line, -Level(vs[i]))
  {
    seq(|vs|, i requires 0 <= i < |vs| => (vs[i].line, -Level(vs[i])))
  }

  function Reserved(edit: Edit): nat {
    match edit.forms
    case None => 0
    case Some(forms) => |forms| + 1
  }

  function Land(c: Core, w: Work, at: nat): Core
    requires w.Writing? && c.doc.Some?
  {
    c.(doc := Some(Landing(w.edit, w.status, w.seen, c.doc.value, c.next, at)),
       opening := c.opening + Opens(w.edit, w.seen, c.doc.value, c.next),
       log := if w.edit.forms == Some([]) then c.log + Closings(c.doc.value.variants) else c.log,
       next := c.next + Reserved(w.edit),
       cleared := c.cleared && w.status == Approved)
  }

  predicate Takes(v: Variant, target: Target, delta: int) {
    && (match target case OwnStock => false case ById(id) => v.id == Some(id) case BySku(sku) => sku != "" && v.sku == sku)
    && v.stock.Some?
    && (delta < 0 ==> v.stock.value + delta >= 0)
  }

  function FirstTaking(vs: seq<Variant>, target: Target, delta: int): (k: nat)
    ensures k <= |vs|
    ensures k < |vs| ==> Takes(vs[k], target, delta)
  {
    if vs == [] then 0 else if Takes(vs[0], target, delta) then 0 else 1 + FirstTaking(vs[1..], target, delta)
  }

  /** A sale, a cancellation or an adjustment: one conditional increment on the stored product. */
  function Moved(c: Core, target: Target, delta: int, at: nat): Core {
    if c.doc.None? then c
    else
      var p := c.doc.value;
      var k := FirstTaking(p.variants, target, delta);
      if k < |p.variants| then
        var v := p.variants[k];
        c.(doc := Some(p.(variants := p.variants[k := v.(stock := Some(v.stock.value + delta))],
                          stock := p.stock + delta, stamp := at)),
           log := c.log + [(v.line, delta)])
      else if target.OwnStock? && p.variants == [] && (delta < 0 ==> p.stock + delta >= 0) then
        c.(doc := Some(p.(stock := p.stock + delta, stamp := at)), log := c.log + [(p.line, delta)])
      else c
  }

  function FirstUntracked(vs: seq<Variant>, id: nat): (k: nat)
    ensures k <= |vs|
    ensures k < |vs| ==> vs[k].stock.None?
  {
    if vs == [] then 0 else if vs[0].id == Some(id) && vs[0].stock.None? then 0 else 1 + FirstUntracked(vs[1..], id)
  }

  /** adjustStock starts an untracked variant from 0. */
  function Tracked(c: Core, id: nat, at: nat): Core {
    if c.doc.None? then c
    else
      var p := c.doc.value;
      var k := FirstUntracked(p.variants, id);
      if k < |p.variants|
      then c.(doc := Some(p.(variants := p.variants[k := p.variants[k].(stock := Some(0))], stamp := at)))
      else c
  }

  function Judged(c: Core, status: Status, at: nat): Core {
    if c.doc.None? then c
    else c.(doc := Some(c.doc.value.(status := status, stamp := at)), cleared := status == Approved)
  }

  /** The status of a new product: an admin's, a product without a photo, or a seller's under the creation setting. */
  function Born(admin: bool, imaged: bool, review: bool): Status {
    if admin then Approved else if !imaged then Draft else if review then Pending else Approved
  }

  /** createProduct: every variant opens an account, or the product itself does. */
  function Created(c: Core, ev: Event): Core
    requires ev.New?
  {
    if c.born then c
    else
      var vs := KeepAll(Typed(ev.forms), [], c.next);
      var p := Product(ev.sku, c.next, if vs == [] then Max(0, ev.stock) else Total(vs), vs,
                       Born(ev.admin, ev.imaged, ev.review), ev.imaged, ev.at);
      Core(Some(p), c.opening + if vs == [] then map[c.next := Max(0, ev.stock)] else Openings(Typed(ev.forms), [], c.next),
           c.log, c.next + |vs| + 1, ev.admin, true)
  }

  predicate Lands(c: Core, w: Work) {
    w.Writing? && c.doc.Some? && c.doc.value.stamp == w.seen.stamp
  }

  function NextWork(c: Core, works: map<nat, Work>, ev: Event): Work
    requires ev.Open? || ((ev.Write? || ev.Reread?) && ev.e in works)
  {
    match ev
    case Open(e, edit) =>
      if e in works then works[e]
      else if c.doc.None? || (edit.forms.Some? && !SkusDistinct(edit.forms.value)) then Refused
      else Writing(Filled(Arrived(edit), c.doc.value), Verdict(edit, c.doc.value), c.doc.value, 0)
    case Write(e, at) =>
      var w := works[e];
      if !w.Writing? then w
      else if Lands(c, w) then Landed
      else Missed(w.edit, w.status, w.attempt)
    case Reread(e) =>
      var w := works[e];
      if !w.Missed? then w
      else if c.doc.None? || w.attempt + 1 >= 3 then Refused
      else Writing(Filled(w.edit, c.doc.value), w.status, c.doc.value, w.attempt + 1)
  }

  function Apply(w: World, ev: Event): World {
    var c := w.core;
    match ev
    case New(_, _, _, _, _, _, _) => w.(core := Created(c, ev))
    case Open(e, _) => w.(edits := w.edits[e := NextWork(c, w.edits, ev)])
    case Write(e, at) =>
      if e !in w.edits then w
      else World(if Lands(c, w.edits[e]) then Land(c, w.edits[e], at) else c, w.edits[e := NextWork(c, w.edits, ev)])
    case Reread(e) => if e !in w.edits then w else w.(edits := w.edits[e := NextWork(c, w.edits, ev)])
    case Move(target, delta, at) => w.(core := Moved(c, target, delta, at))
    case Track(id, at) => w.(core := Tracked(c, id, at))
    case Approve(at) => w.(core := Judged(c, Approved, at))
    case Reject(at) => w.(core := Judged(c, Rejected, at))
    case Remove => w.(core := c.(doc := None))
  }

  function Run(w: World, evs: seq<Event>): World
    decreases |evs|
  {
    if evs == [] then w else Run(Apply(w, evs[0]), evs[1..])
  }

  lemma RunOne(w: World, ev: Event)
    ensures Run(w, [ev]) == Apply(w, ev)
  {
  }

  lemma {:induction false} RunConcat(w: World, a: seq<Event>, b: seq<Event>)
    ensures Run(w, a + b) == Run(Run(w, a), b)
    decreases |a|
  {
    hide Apply;
    if a == [] {
      assert a + b == b;
    } else {
      RunConcat(Apply(w, a[0]), a[1..], b);
      assert (a + b)[1..] == a[1..] + b;
    }
  }

  lemma RunThree(w: World, a: Event, b: Event, c: Event)
    ensures Run(w, [a, b, c]) == Apply(Apply(Apply(w, a), b), c)
  {
    hide Apply;
    assert [a, b, c][1..] == [b, c] && [b, c][1..] == [c];
    assert Run(Apply(w, a), [b, c]) == Run(Apply(Apply(w, a), b), [c]);
    RunOne(Apply(Apply(w, a), b), c);
  }

  // ---------------------------------------------------------------------------
  // Giving up
  // ---------------------------------------------------------------------------

  predicate About(ev: Event, e: nat) {
    (ev.Open? || ev.Write? || ev.Reread?) && ev.e == e
  }

  /** The run without the steps of one edit. */
  function Unasked(evs: seq<Event>, e: nat): seq<Event> {
    if evs == [] then []
    else (if About(evs[0], e) then [] else [evs[0]]) + Unasked(evs[1..], e)
  }

  ghost predicate SameBut(w: World, u: World, e: nat) {
    && w.core == u.core
    && forall x :: x != e ==> (x in w.edits <==> x in u.edits) && (x in w.edits ==> w.edits[x] == u.edits[x])
  }

  lemma {:induction false} LandedStays(w: World, evs: seq<Event>, e: nat)
    requires e in w.edits && w.edits[e].Landed?
    ensures e in Run(w, evs).edits && Run(w, evs).edits[e].Landed?
    decreases |evs|
  {
    if evs != [] { LandedStays(Apply(w, evs[0]), evs[1..], e); }
  }

  lemma OthersSeeNothing(w: World, u: World, ev: Event, e: nat)
    requires SameBut(w, u, e) && !About(ev, e)
    ensures SameBut(Apply(w, ev), Apply(u, ev), e)
  {
  }

  lemma {:induction false} LandingIsTheOnlyEffect(w: World, u: World, evs: seq<Event>, e: nat)
    requires SameBut(w, u, e)
    requires e in Run(w, evs).edits ==> !Run(w, evs).edits[e].Landed?
    ensures SameBut(Run(w, evs), Run(u, Unasked(evs, e)), e)
    decreases |evs|
  {
    if evs != [] {
      var next := Apply(w, evs[0]);
      if About(evs[0], e) {
        if e in next.edits && next.edits[e].Landed? { LandedStays(next, evs[1..], e); }
        assert SameBut(next, u, e);
        LandingIsTheOnlyEffect(next, u, evs[1..], e);
        assert Unasked(evs, e) == Unasked(evs[1..], e);
      } else {
        var also := Apply(u, evs[0]);
        OthersSeeNothing(w, u, evs[0], e);
        LandingIsTheOnlyEffect(next, also, evs[1..], e);
        assert Unasked(evs, e)[1..] == Unasked(evs[1..], e);
      }
    }
  }

  /** An edit that ends refused, or is still waiting, has changed nothing: the run is the run without it. */
  lemma GivingUpChangesNothing(w: World, evs: seq<Event>, e: nat)
    requires e !in w.edits
    requires e in Run(w, evs).edits ==> !Run(w, evs).edits[e].Landed?
    ensures Run(w, evs).core == Run(w, Unasked(evs, e)).core
  {
    LandingIsTheOnlyEffect(w, w, evs, e);
  }
}
