/**
 * The official brands and the copy of a brand's name on each linked product
 * (brandController.js, models/brand.js, productController.js applyBrandFields). Slugs,
 * logos and descriptions play no part. Ids stand for Mongo ids.
 */
module Brands {
  import opened Wrappers
  import opened Text

  datatype Brand = Brand(name: string, key: string, active: bool)

  /** A product's link: the brand it points to, if any, and the text shown. */
  datatype Link = Link(brand: Option<nat>, text: string)

  function NameKey(name: string): string {
    Lower(Collapse(Trim(name)))
  }

  /** What the validation hook stores for a name. */
  function Named(name: string, active: bool): Brand {
    Brand(Normal(name), NameKey(Normal(name)), active)
  }

  /** The key is that of the name as typed: normalising the name does not change it. */
  lemma KeyIgnoresSpacing(name: string)
    ensures NameKey(Normal(name)) == NameKey(name)
    ensures NameKey(Trim(name)) == NameKey(name)
    ensures Normal(Normal(name)) == Normal(name)
    ensures Normal(Trim(name)) == Normal(name)
  {
    NormalTwice(name);
    TrimTwice(name);
  }

  // ---------------------------------------------------------------------------
  // The machine: every database call is a step
  // ---------------------------------------------------------------------------

  /** What a product form says about its brand; a form that says nothing leaves the link alone. */
  datatype Choice = ById(id: nat) | ByName(name: string)

  /** A handler between two calls. */
  datatype Work =
    | Saving(product: nat, link: Link)
    | Renaming(brand: nat, name: string)
    | Dropping(brand: nat)

  datatype Event =
    | CreateBrand(id: nat, name: string)
    | SaveBrand(e: nat, id: nat, newName: Option<string>, newActive: Option<bool>)
    | Cascade(e: nat)
    | CountUses(e: nat, id: nat)
    | DropBrand(e: nat)
    | ChooseBrand(e: nat, product: nat, choice: Choice)
    | SaveProduct(e: nat)

  datatype World = World(brands: map<nat, Brand>, products: map<nat, Link>, work: map<nat, Work>)

  predicate KeyTaken(brands: map<nat, Brand>, key: string, but: Option<nat>) {
    exists id :: id in brands && Some(id) != but && brands[id].key == key
  }

  /** The active brand with this key: keys are unique, so there is at most one. */
  ghost function Matching(brands: map<nat, Brand>, key: string): (id: Option<nat>)
    ensures id.Some? ==> id.value in brands && brands[id.value].key == key && brands[id.value].active
    ensures id.None? ==> forall b :: b in brands && brands[b].active ==> brands[b].key != key
  {
    if b :| b in brands && brands[b].active && brands[b].key == key then Some(b) else None
  }

  /** applyBrandFields: the link an edit will write, None if it is refused. */
  ghost function Chosen(brands: map<nat, Brand>, existing: Option<Link>, choice: Choice): Option<Link> {
    match choice
    case ById(id) =>
      if id in brands && (brands[id].active || (existing.Some? && existing.value.brand == Some(id)))
      then Some(Link(Some(id), brands[id].name)) else None
    case ByName(name) =>
      if Trim(name) == "" then Some(Link(None, ""))
      else match Matching(brands, NameKey(Trim(name)))
        case Some(id) => Some(Link(Some(id), brands[id].name))
        case None => Some(Link(None, Trim(name)))
  }

  /** Whether updateBrand accepts these fields for the stored brand. */
  predicate CanRename(brands: map<nat, Brand>, id: nat, name: Option<string>) {
    && id in brands
    && (name.Some? ==> Trim(name.value) != "" && !KeyTaken(brands, NameKey(Trim(name.value)), Some(id)))
  }

  function Renamed(b: Brand, name: Option<string>, active: Option<bool>): Brand {
    if name.Some? then Named(Trim(name.value), active.GetOr(b.active)) else b.(active := active.GetOr(b.active))
  }

  function Uses(products: map<nat, Link>, id: nat): set<nat> {
    set p | p in products && products[p].brand == Some(id)
  }

  function Rewritten(products: map<nat, Link>, id: nat, name: string): map<nat, Link> {
    map p | p in products :: if products[p].brand == Some(id) then products[p].(text := name) else products[p]
  }

  ghost function Apply(w: World, ev: Event): World {
    match ev
    case CreateBrand(id, name) =>
      if id in w.brands || Trim(name) == "" || KeyTaken(w.brands, NameKey(Trim(name)), None) then w
      else w.(brands := w.brands[id := Named(Trim(name), true)])
    case SaveBrand(e, id, name, active) =>
      if e in w.work || !CanRename(w.brands, id, name) then w
      else
        var b := Renamed(w.brands[id], name, active);
        w.(brands := w.brands[id := b],
           work := if b.name == w.brands[id].name then w.work else w.work[e := Renaming(id, b.name)])
    case Cascade(e) =>
      if e !in w.work || !w.work[e].Renaming? then w
      else World(w.brands, Rewritten(w.products, w.work[e].brand, w.work[e].name), w.work - {e})
    case CountUses(e, id) =>
      if e in w.work || Uses(w.products, id) != {} then w else w.(work := w.work[e := Dropping(id)])
    case DropBrand(e) =>
      if e !in w.work || !w.work[e].Dropping? then w
      else World(w.brands - {w.work[e].brand}, w.products, w.work - {e})
    case ChooseBrand(e, product, choice) =>
      var link := Chosen(w.brands, if product in w.products then Some(w.products[product]) else None, choice);
      if e in w.work || link.None? then w else w.(work := w.work[e := Saving(product, link.value)])
    case SaveProduct(e) =>
      if e !in w.work || !w.work[e].Saving? then w
      else World(w.brands, w.products[w.work[e].product := w.work[e].link], w.work - {e})
  }

  ghost function Run(w: World, evs: seq<Event>): World
    decreases |evs|
  {
    if evs == [] then w else Run(Apply(w, evs[0]), evs[1..])
  }

  // ---------------------------------------------------------------------------
  // What the steps keep
  // ---------------------------------------------------------------------------

  ghost predicate Keyed(brands: map<nat, Brand>) {
    && (forall b :: b in brands ==> brands[b].key == NameKey(brands[b].name) && Normal(brands[b].name) == brands[b].name && brands[b].name != "")
    && (forall b, c :: b in brands && c in brands && brands[b].key == brands[c].key ==> b == c)
  }

  /** A rename of this brand still has to rewrite its products. */
  ghost predicate InFlight(w: World, id: nat) {
    exists e :: e in w.work && w.work[e].Renaming? && w.work[e].brand == id
  }

  /** The link points to a brand and shows its name, unless the name is being rewritten. */
  ghost predicate Linked(w: World, link: Link) {
    link.brand.Some? ==>
      && link.brand.value in w.brands
      && (link.text == w.brands[link.brand.value].name || InFlight(w, link.brand.value))
  }

  ghost predicate AllLinked(w: World) {
    forall p :: p in w.products ==> Linked(w, w.products[p])
  }

  /** Every create and rename keeps the name keys unique and derived from the stored name. */
  lemma KeysStayUnique(w: World, ev: Event)
    requires Keyed(w.brands)
    ensures Keyed(Apply(w, ev).brands)
  {
    hide Trim, NameKey, Normal;
    match ev
    case CreateBrand(id, name) =>
      if id !in w.brands && Trim(name) != "" && !KeyTaken(w.brands, NameKey(Trim(name)), None) {
        NewName(w.brands, id, name, None, true);
      }
    case SaveBrand(e, id, name, active) =>
      if CanRename(w.brands, id, name) && name.Some? {
        NewName(w.brands, id, name.value, Some(id), active.GetOr(w.brands[id].active));
      }
    case _ =>
  }

  lemma NewName(brands: map<nat, Brand>, id: nat, name: string, but: Option<nat>, active: bool)
    requires Keyed(brands) && but == if id in brands then Some(id) else None
    requires Trim(name) != "" && !KeyTaken(brands, NameKey(Trim(name)), but)
    ensures Keyed(brands[id := Named(Trim(name), active)])
  {
    KeyIgnoresSpacing(Trim(name));
    NormalTwice(Trim(name));
    TrimTwice(name);
    hide Trim, NameKey, Normal;
    var after := brands[id := Named(Trim(name), active)];
    assert forall c :: c in brands && Some(c) != but ==> brands[c].key != NameKey(Trim(name));
    assert forall c :: c in after && c != id ==> after[c] == brands[c];
  }

  /** Nothing has come between a handler's read and its write that makes the write wrong. */
  ghost predicate Timely(w: World, ev: Event) {
    (ev.SaveProduct? || ev.DropBrand? || ev.Cascade?) && ev.e in w.work ==>
      match w.work[ev.e]
      case Saving(_, link) => ev.SaveProduct? ==> Linked(w, link)
      case Dropping(b) => ev.DropBrand? ==> Uses(w.products, b) == {}
      case Renaming(b, name) =>
        ev.Cascade? && Uses(w.products, b) != {} ==>
          (b in w.brands && name == w.brands[b].name) || exists f :: f != ev.e && f in w.work && w.work[f].Renaming? && w.work[f].brand == b
  }

  lemma CascadeKeepsIff(w: World, ev: Event)
    requires AllLinked(w) && ev.Cascade? && ev.e in w.work && w.work[ev.e].Renaming?
    ensures AllLinked(Apply(w, ev)) <==> Timely(w, ev)
  {
    var v := Apply(w, ev);
    var b, name := w.work[ev.e].brand, w.work[ev.e].name;
    forall id | id != b ensures InFlight(v, id) <==> InFlight(w, id) {
      if InFlight(w, id) {
        var f :| f in w.work && w.work[f].Renaming? && w.work[f].brand == id;
        assert f in v.work;
      }
    }
    assert InFlight(v, b) <==> exists f :: f != ev.e && f in w.work && w.work[f].Renaming? && w.work[f].brand == b by {
      assert forall f :: f in v.work <==> f in w.work && f != ev.e;
    }
    if Uses(w.products, b) != {} {
      var p :| p in Uses(w.products, b);
      assert Linked(w, w.products[p]);
      assert v.products[p] == Link(Some(b), name);
      assert AllLinked(v) ==> Linked(v, v.products[p]);
    }
    forall p | p in w.products && (w.products[p].brand == Some(b) ==> Timely(w, ev)) ensures Linked(v, v.products[p]) {
      assert Linked(w, w.products[p]);
      assert w.products[p].brand == Some(b) ==> p in Uses(w.products, b);
    }
  }

  lemma WritesKeepIff(w: World, ev: Event)
    requires AllLinked(w) && (ev.SaveProduct? || ev.DropBrand?) && ev.e in w.work
    requires (ev.SaveProduct? && w.work[ev.e].Saving?) || (ev.DropBrand? && w.work[ev.e].Dropping?)
    ensures AllLinked(Apply(w, ev)) <==> Timely(w, ev)
  {
    var v := Apply(w, ev);
    forall id ensures InFlight(v, id) <==> InFlight(w, id) {
      if InFlight(w, id) {
        var f :| f in w.work && w.work[f].Renaming? && w.work[f].brand == id;
        assert f in v.work;
      }
    }
    if ev.SaveProduct? {
      var p := w.work[ev.e].product;
      assert v.products[p] == w.work[ev.e].link;
      assert AllLinked(v) ==> Linked(v, v.products[p]);
    } else {
      var b := w.work[ev.e].brand;
      if Uses(w.products, b) != {} {
        var p :| p in Uses(w.products, b);
        assert p in v.products && !Linked(v, v.products[p]);
      }
      forall p | p in w.products && Uses(w.products, b) == {} ensures Linked(v, v.products[p]) {
        assert p !in Uses(w.products, b);
        assert Linked(w, w.products[p]);
      }
    }
  }

  lemma ReadsKeepLinks(w: World, ev: Event)
    requires AllLinked(w) && (ev.CreateBrand? || ev.SaveBrand? || ev.CountUses? || ev.ChooseBrand?)
    ensures AllLinked(Apply(w, ev))
  {
    var v := Apply(w, ev);
    forall id | InFlight(w, id) ensures InFlight(v, id) {
      var f :| f in w.work && w.work[f].Renaming? && w.work[f].brand == id;
      assert f in v.work && v.work[f] == w.work[f];
    }
    forall p | p in v.products ensures Linked(v, v.products[p]) {
      assert Linked(w, w.products[p]);
      if ev.SaveBrand? && ev.id in w.brands && v.brands[ev.id].name != w.brands[ev.id].name {
        assert v.work[ev.e] == Renaming(ev.id, v.brands[ev.id].name);
      }
    }
  }

  /** A step keeps every link right exactly when it is timely. */
  lemma StepKeepsLinksIff(w: World, ev: Event)
    requires AllLinked(w)
    ensures AllLinked(Apply(w, ev)) <==> Timely(w, ev)
  {
    if ev.CreateBrand? || ev.SaveBrand? || ev.CountUses? || ev.ChooseBrand? {
      ReadsKeepLinks(w, ev);
    } else if ev.e in w.work {
      if ev.Cascade? && w.work[ev.e].Renaming? {
        CascadeKeepsIff(w, ev);
      } else if (ev.SaveProduct? && w.work[ev.e].Saving?) || (ev.DropBrand? && w.work[ev.e].Dropping?) {
        WritesKeepIff(w, ev);
      }
    }
  }

  ghost predicate AllTimely(w: World, evs: seq<Event>)
    decreases |evs|
  {
    evs != [] ==> Timely(w, evs[0]) && AllTimely(Apply(w, evs[0]), evs[1..])
  }

  /** At rest — no rename half done — each linked product shows its brand's current name. */
  ghost predicate NamesShown(w: World) {
    forall p :: p in w.products && w.products[p].brand.Some? ==>
      && w.products[p].brand.value in w.brands
      && w.products[p].text == w.brands[w.products[p].brand.value].name
  }

  lemma {:induction false} RunKeepsNames(w: World, evs: seq<Event>)
    requires Keyed(w.brands) && AllLinked(w) && AllTimely(w, evs)
    ensures Keyed(Run(w, evs).brands) && AllLinked(Run(w, evs))
    ensures (forall e :: e in Run(w, evs).work ==> !Run(w, evs).work[e].Renaming?) ==> NamesShown(Run(w, evs))
    decreases |evs|
  {
    if evs == [] {
      if forall e :: e in w.work ==> !w.work[e].Renaming? {
        forall p | p in w.products && w.products[p].brand.Some?
          ensures w.products[p].brand.value in w.brands && w.products[p].text == w.brands[w.products[p].brand.value].name
        {
          assert Linked(w, w.products[p]);
        }
      }
    } else {
      KeysStayUnique(w, evs[0]);
      StepKeepsLinksIff(w, evs[0]);
      RunKeepsNames(Apply(w, evs[0]), evs[1..]);
    }
  }

  // ---------------------------------------------------------------------------
  // Untimely runs
  // ---------------------------------------------------------------------------

  lemma RunTwo(w: World, a: Event, b: Event)
    ensures Run(w, [a, b]) == Apply(Apply(w, a), b)
  {
    hide Apply;
    assert [a, b][1..] == [b] && [b][1..] == [];
    assert Run(Apply(w, a), [b]) == Run(Apply(Apply(w, a), b), []);
  }

  lemma RunFour(w: World, a: Event, b: Event, c: Event, d: Event)
    ensures Run(w, [a, b, c, d]) == Apply(Apply(Apply(Apply(w, a), b), c), d)
  {
    hide Apply;
    assert [a, b, c, d][1..] == [b, c, d] && [b, c, d][1..] == [c, d];
    assert Run(Apply(w, a), [b, c, d]) == Run(Apply(Apply(w, a), b), [c, d]);
    RunTwo(Apply(Apply(w, a), b), c, d);
  }

  lemma KeyedOne(b: nat, name: string)
    requires Normal(name) == name && name != ""
    ensures Keyed(map[b := Named(name, true)])
  {
  }

  /** A product whose form was checked before a rename and saved after it shows the old name for good. */
  lemma SaveAfterRenameShowsOldName(b: nat, p: nat, was: string, name: string)
    requires Normal(was) == was && Normal(name) == name && was != "" && name != "" && was != name
    ensures var w := World(map[b := Named(was, true)], map[], map[]);
            var after := Run(w, [ChooseBrand(1, p, ById(b)), SaveBrand(2, b, Some(name), None), Cascade(2), SaveProduct(1)]);
      && Keyed(w.brands)
      && after == World(map[b := Named(name, true)], map[p := Link(Some(b), was)], map[])
  {
    NormalTwice(was);
    NormalTwice(name);
    hide Run, Trim, Normal, NameKey, AllLinked, Keyed;
    assert Keyed(map[b := Named(was, true)]) by { KeyedOne(b, was); }
    var w := World(map[b := Named(was, true)], map[], map[]);
    var choose, save := ChooseBrand(1, p, ById(b)), SaveBrand(2, b, Some(name), None);
    RunFour(w, choose, save, Cascade(2), SaveProduct(1));
    var w1 := Apply(w, choose);
    assert w1.work == map[1 := Saving(p, Link(Some(b), was))];
    assert CanRename(w1.brands, b, Some(name));
    var w2 := Apply(w1, save);
    assert w2 == World(map[b := Named(name, true)], map[], w1.work[2 := Renaming(b, name)]);
    var w3 := Apply(w2, Cascade(2));
    assert w3 == World(w2.brands, map[], w1.work);
  }

  /** A brand counted as unused and deleted after a product chose it leaves the product pointing nowhere. */
  lemma DeleteAfterCountLeavesDangling(b: nat, p: nat, name: string)
    requires Normal(name) == name && name != ""
    ensures var w := World(map[b := Named(name, true)], map[], map[1 := Saving(p, Link(Some(b), name))]);
            var after := Run(w, [CountUses(2, b), SaveProduct(1)]);
      && AllLinked(after)
      && Apply(after, DropBrand(2)).products == map[p := Link(Some(b), name)] && Apply(after, DropBrand(2)).brands == map[]
  {
    hide Run, Trim, Normal, NameKey;
    var w := World(map[b := Named(name, true)], map[], map[1 := Saving(p, Link(Some(b), name))]);
    RunTwo(w, CountUses(2, b), SaveProduct(1));
    assert Uses(w.products, b) == {};
  }

  // ---------------------------------------------------------------------------
  // The handlers, one request at a time
  // ---------------------------------------------------------------------------

  class BrandDesk {
    var brands: map<nat, Brand>
    var products: map<nat, Link>

    constructor ()
      ensures Now() == World(map[], map[], map[]) && Valid()
    {
      brands, products := map[], map[];
    }

    ghost function Now(): World
      reads this
    {
      World(brands, products, map[])
    }

    ghost predicate Valid()
      reads this
    {
      Keyed(brands) && NamesShown(Now())
    }

    method CreateBrand(id: nat, name: string) returns (ok: bool)
      requires Valid() && id !in brands
      modifies this`brands
      ensures Valid() && Now() == Apply(old(Now()), Event.CreateBrand(id, name))
      ensures ok <==> brands != old(brands)
    {
      hide Trim, NameKey, Normal;
      var trimmed := Trim(name);
      if trimmed == "" || KeyTaken(brands, NameKey(trimmed), None) { return false; }
      NewName(brands, id, name, None, true);
      ok, brands := true, brands[id := Named(trimmed, true)];
    }

    /** updateBrand: save, then rewrite the name on every linked product if it changed. */
    method UpdateBrand(id: nat, name: Option<string>, active: Option<bool>) returns (ok: bool)
      requires Valid()
      modifies this
      ensures Valid()
      ensures ok <==> CanRename(old(brands), id, name)
      ensures !ok ==> Now() == old(Now())
      ensures ok ==> brands == old(brands)[id := Renamed(old(brands)[id], name, active)]
      ensures ok ==> products == if brands[id].name == old(brands)[id].name then old(products)
                                 else Rewritten(old(products), id, brands[id].name)
    {
      hide Trim, NameKey, Normal;
      ok := CanRename(brands, id, name);
      if !ok { return; }
      var previous := brands[id].name;
      if name.Some? { NewName(brands, id, name.value, Some(id), active.GetOr(brands[id].active)); }
      brands := brands[id := Renamed(brands[id], name, active)];
      if brands[id].name != previous { products := Rewritten(products, id, brands[id].name); }
    }

    /** deleteBrand: blocked while products use it. */
    method DeleteBrand(id: nat) returns (ok: bool)
      requires Valid()
      modifies this`brands
      ensures Valid()
      ensures ok <==> id in old(brands) && forall p :: p in products ==> products[p].brand != Some(id)
      ensures brands == if ok then old(brands) - {id} else old(brands)
    {
      var uses := Uses(products, id);
      assert uses == {} <==> forall p :: p in products ==> p !in uses;
      if uses != {} || id !in brands { return false; }
      ok, brands := true, brands - {id};
    }
  
    /** applyBrandFields, then the product is saved. */
    method SaveProduct(p: nat, choice: Choice) returns (ok: bool)
      requires Valid()
      modifies this`products
      ensures Valid()
      ensures var link := Chosen(brands, if p in old(products) then Some(old(products)[p]) else None, choice);
        && (ok <==> link.Some?)
        && products == if ok then old(products)[p := link.value] else old(products)
    {
      hide Trim, NameKey, Normal;
      match choice
      case ById(id) =>
        ok := id in brands && (brands[id].active || (p in products && products[p].brand == Some(id)));
        if ok { products := products[p := Link(Some(id), brands[id].name)]; }
      case ByName(name) =>
        ok := true;
        if Trim(name) == "" {
          products := products[p := Link(None, "")];
        } else {
          var key := NameKey(Trim(name));
          if b :| b in brands && brands[b].active && brands[b].key == key {
            products := products[p := Link(Some(b), brands[b].name)];
          } else {
            products := products[p := Link(None, Trim(name))];
          }
        }
    }
  }
}
