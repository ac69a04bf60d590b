/**
 * The category hierarchy (categoryController.js): create and update with their parent check,
 * and the recursive deletion of a node with its descendants. Ids stand for Mongo ids;
 * names, slugs, images and commission fields play no part.
 */
module Categories {
  import opened Wrappers

  datatype Kind = Header | Category | Subcategory

  datatype Node = Node(kind: Kind, parent: Option<nat>)

  type Forest = map<nat, Node>

  // ---------------------------------------------------------------------------
  // Ancestors
  // ---------------------------------------------------------------------------

  function Parent(f: Forest, id: nat): Option<nat> {
    if id in f then f[id].parent else None
  }

  /** The node n levels above id, if the parent links go that far. */
  function Up(f: Forest, id: nat, n: nat): Option<nat>
    decreases n
  {
    if n == 0 then Some(id)
    else match Parent(f, id)
      case None => None
      case Some(p) => Up(f, p, n - 1)
  }

  ghost predicate Below(f: Forest, id: nat, top: nat) {
    exists n: nat :: n > 0 && Up(f, id, n) == Some(top)
  }

  /** The stored descendants of top, without top itself unless it lies on a cycle. */
  ghost function Descendants(f: Forest, top: nat): set<nat> {
    set id | id in f && Below(f, id, top)
  }

  ghost function Subtree(f: Forest, top: nat): set<nat> {
    Descendants(f, top) + {top}
  }

  ghost predicate OnCycle(f: Forest, id: nat) {
    Below(f, id, id)
  }

  function Children(f: Forest, id: nat): set<nat> {
    set c | c in f && f[c].parent == Some(id)
  }

  lemma {:induction false} UpAdds(f: Forest, id: nat, m: nat, n: nat)
    requires Up(f, id, m).Some?
    ensures Up(f, id, m + n) == Up(f, Up(f, id, m).value, n)
    decreases m
  {
    if m > 0 { UpAdds(f, f[id].parent.value, m - 1, n); }
  }

  lemma BelowTrans(f: Forest, a: nat, b: nat, c: nat)
    requires Below(f, a, b) && Below(f, b, c)
    ensures Below(f, a, c)
  {
    var m: nat :| m > 0 && Up(f, a, m) == Some(b);
    var n: nat :| n > 0 && Up(f, b, n) == Some(c);
    UpAdds(f, a, m, n);
  }

  lemma ChildIsBelow(f: Forest, c: nat, id: nat)
    requires c in Children(f, id)
    ensures Below(f, c, id)
  {
    assert Up(f, c, 1) == Some(id);
  }

  /** What lies below id is a child of id or lies below one. */
  lemma {:induction false} BelowViaChild(f: Forest, x: nat, id: nat, n: nat) returns (c: nat)
    requires x in f && n > 0 && Up(f, x, n) == Some(id)
    ensures c in Children(f, id) && (x == c || Below(f, x, c))
    decreases n
  {
    var p := f[x].parent.value;
    if n == 1 {
      c := x;
    } else {
      assert Up(f, p, n - 1) == Some(id) && p in f;
      c := BelowViaChild(f, p, id, n - 1);
      assert Up(f, x, 1) == Some(p);
      assert Below(f, x, p);
      if p != c { BelowTrans(f, x, p, c); }
    }
  }

  /** Each node has one parent, so only one walk leads up: above a cycle there is only the cycle. */
  lemma {:induction false} AboveCycle(f: Forest, x: nat, m: nat, top: nat)
    requires OnCycle(f, x) && Up(f, x, m) == Some(top)
    ensures OnCycle(f, top)
    decreases m
  {
    if m > 0 {
      var p := f[x].parent.value;
      var k: nat :| k > 0 && Up(f, x, k) == Some(x);
      UpAdds(f, x, k, 1);
      UpAdds(f, x, 1, k);
      assert Up(f, p, k) == Up(f, x, k + 1) == Some(p);
      AboveCycle(f, p, m - 1, top);
    }
  }

  lemma SubtreeIsChildren(f: Forest, id: nat)
    ensures forall x :: x in Descendants(f, id) <==> exists c :: c in Children(f, id) && x in Subtree(f, c)
  {
    forall x | x in Descendants(f, id) ensures exists c :: c in Children(f, id) && x in Subtree(f, c) {
      var n: nat :| n > 0 && Up(f, x, n) == Some(id);
      var c := BelowViaChild(f, x, id, n);
      assert x in Subtree(f, c);
    }
    forall x, c | c in Children(f, id) && x in Subtree(f, c) ensures x in Descendants(f, id) {
      ChildIsBelow(f, c, id);
      if x != c { BelowTrans(f, x, c, id); }
    }
  }

  // ---------------------------------------------------------------------------
  // Removing a subtree leaves every other walk alone
  // ---------------------------------------------------------------------------

  ghost function Without(f: Forest, gone: set<nat>): Forest {
    map id | id in f && id !in gone :: f[id]
  }

  lemma {:induction false} SameWalk(f: Forest, top: nat, x: nat, n: nat)
    requires top in f && x !in Subtree(f, top) && x in f
    ensures Up(Without(f, Subtree(f, top)), x, n) == Up(f, x, n)
    decreases n
  {
    var g := Without(f, Subtree(f, top));
    assert g[x] == f[x];
    if n > 0 && f[x].parent.Some? {
      var p := f[x].parent.value;
      assert Up(f, x, 1) == Some(p);
      if p in Subtree(f, top) {
        assert Below(f, x, p);
        if p != top { BelowTrans(f, x, p, top); }
        assert false;
      }
      if p in f {
        SameWalk(f, top, p, n - 1);
      } else {
        assert p !in g;
      }
    }
  }

  lemma SubtreeAfter(f: Forest, top: nat, x: nat)
    requires top in f && x in f && x !in Subtree(f, top)
    ensures Subtree(Without(f, Subtree(f, top)), x) == Subtree(f, x) - Subtree(f, top)
    ensures OnCycle(Without(f, Subtree(f, top)), x) <==> OnCycle(f, x)
  {
    var g := Without(f, Subtree(f, top));
    forall y | y in f && y !in Subtree(f, top) ensures Below(g, y, x) <==> Below(f, y, x) {
      if Below(f, y, x) {
        var n: nat :| n > 0 && Up(f, y, n) == Some(x);
        SameWalk(f, top, y, n);
      }
      if Below(g, y, x) {
        var n: nat :| n > 0 && Up(g, y, n) == Some(x);
        SameWalk(f, top, y, n);
      }
    }
  }

  lemma SiblingBelow(f: Forest, id: nat, c: nat, d: nat)
    requires c in Children(f, id) && d in Children(f, id) && Below(f, d, c)
    ensures OnCycle(f, c)
  {
    ChildIsBelow(f, c, id);
    var n: nat :| n > 0 && Up(f, d, n) == Some(c);
    assert Up(f, id, n - 1) == Some(c);
    if n > 1 { BelowTrans(f, c, id, c); }
  }

  /** Deleting one child that is not on a cycle leaves the other children and the rest of the picture. */
  lemma AfterChild(f: Forest, id: nat, c: nat)
    requires id in f && c in Children(f, id) && !OnCycle(f, c)
    ensures var g := Without(f, Subtree(f, c));
      && id in g
      && Children(g, id) == Children(f, id) - {c}
      && Descendants(g, id) <= Descendants(f, id)
      && (OnCycle(g, id) <==> OnCycle(f, id))
      && Without(g, Subtree(g, id)) == Without(f, Subtree(f, id))
  {
    var g := Without(f, Subtree(f, c));
    ChildIsBelow(f, c, id);
    if id in Subtree(f, c) {
      if id != c { BelowTrans(f, c, id, c); }
      assert false;
    }
    SubtreeAfter(f, c, id);
    forall d | d in Children(f, id) && d != c ensures d in g {
      if Below(f, d, c) { SiblingBelow(f, id, c, d); }
    }
    forall x | x in Subtree(f, c) ensures x in Descendants(f, id) || x !in f {
      if x != c && x in f { BelowTrans(f, x, c, id); }
    }
    assert Subtree(g, id) == Subtree(f, id) - Subtree(f, c);
    assert Subtree(f, c) <= Subtree(f, id);
  }

  lemma NoChildrenNoDescendants(f: Forest, id: nat)
    requires Children(f, id) == {}
    ensures Descendants(f, id) == {}
    ensures id in f ==> !OnCycle(f, id)
  {
    SubtreeIsChildren(f, id);
    assert OnCycle(f, id) && id in f ==> id in Descendants(f, id);
  }

  lemma ChildHasFewer(f: Forest, id: nat, c: nat)
    requires c in Children(f, id) && !OnCycle(f, id)
    ensures !OnCycle(f, c)
    ensures |Descendants(f, c)| < |Descendants(f, id)|
  {
    ChildIsBelow(f, c, id);
    if OnCycle(f, c) {
      AboveCycle(f, c, 1, id);
      assert false;
    }
    forall x | x in Descendants(f, c) ensures x in Descendants(f, id) { BelowTrans(f, x, c, id); }
    Smaller(Descendants(f, c) + {c}, Descendants(f, id));
  }

  lemma {:induction false} Smaller(a: set<nat>, b: set<nat>)
    requires a <= b
    ensures |a| <= |b|
  {
    if a != {} {
      var x :| x in a;
      Smaller(a - {x}, b - {x});
    }
  }

  // ---------------------------------------------------------------------------
  // The recursion, with its stack depth
  // ---------------------------------------------------------------------------

  ghost function Pick(cs: set<nat>): (c: nat)
    requires cs != {}
    ensures c in cs
  {
    var c :| c in cs; c
  }

  /** deleteWithChildren, given up when it needs more than `depth` nested calls. */
  ghost function Delete(f: Forest, id: nat, depth: nat): Option<Forest>
    decreases depth, 0, 0
  {
    if depth == 0 then None
    else match DeleteAll(f, Children(f, id), depth - 1)
      case None => None
      case Some(g) => Some(Without(g, {id}))
  }

  ghost function DeleteAll(f: Forest, cs: set<nat>, depth: nat): Option<Forest>
    decreases depth, 1, |cs|
  {
    if cs == {} then Some(f)
    else match Delete(f, Pick(cs), depth)
      case None => None
      case Some(g) => DeleteAll(g, cs - {Pick(cs)}, depth)
  }

  lemma {:induction false} DeleteExact(f: Forest, id: nat, depth: nat)
    requires id in f && Delete(f, id, depth).Some?
    ensures !OnCycle(f, id)
    ensures Delete(f, id, depth) == Some(Without(f, Subtree(f, id)))
    decreases depth, 0, 0
  {
    DeleteAllExact(f, id, Children(f, id), depth - 1);
  }

  lemma {:induction false} DeleteAllExact(f: Forest, id: nat, cs: set<nat>, depth: nat)
    requires id in f && cs == Children(f, id) && DeleteAll(f, cs, depth).Some?
    ensures !OnCycle(f, id)
    ensures Without(DeleteAll(f, cs, depth).value, {id}) == Without(f, Subtree(f, id))
    decreases depth, 1, |cs|
  {
    if cs == {} {
      NoChildrenNoDescendants(f, id);
    } else {
      var c := Pick(cs);
      DeleteExact(f, c, depth);
      AfterChild(f, id, c);
      DeleteAllExact(Without(f, Subtree(f, c)), id, cs - {c}, depth);
    }
  }

  lemma {:induction false} DeleteReturns(f: Forest, id: nat, depth: nat)
    requires id in f && !OnCycle(f, id) && depth > |Descendants(f, id)|
    ensures Delete(f, id, depth).Some?
    decreases depth, 0, 0
  {
    DeleteAllReturns(f, id, Children(f, id), depth - 1);
  }

  lemma {:induction false} DeleteAllReturns(f: Forest, id: nat, cs: set<nat>, depth: nat)
    requires id in f && cs == Children(f, id) && !OnCycle(f, id) && depth >= |Descendants(f, id)|
    ensures DeleteAll(f, cs, depth).Some?
    decreases depth, 1, |cs|
  {
    if cs != {} {
      var c := Pick(cs);
      ChildHasFewer(f, id, c);
      DeleteReturns(f, c, depth);
      DeleteExact(f, c, depth);
      AfterChild(f, id, c);
      var g := Without(f, Subtree(f, c));
      Smaller(Descendants(g, id), Descendants(f, id));
      DeleteAllReturns(g, id, cs - {c}, depth);
    }
  }

  /** The recursive deletion of a stored node terminates exactly when the node is not its own ancestor. */
  lemma DeletionTerminatesIff(f: Forest, id: nat)
    requires id in f
    ensures (exists depth: nat :: Delete(f, id, depth).Some?) <==> !OnCycle(f, id)
  {
    if !OnCycle(f, id) {
      DeleteReturns(f, id, |Descendants(f, id)| + 1);
    }
    forall depth: nat | Delete(f, id, depth).Some? ensures !OnCycle(f, id) {
      DeleteExact(f, id, depth);
    }
  }

  /** It removes the node and its descendants, nothing else, and leaves no child of a removed node. */
  lemma DeletionLeavesNoOrphans(f: Forest, id: nat, depth: nat)
    requires id in f && Delete(f, id, depth).Some?
    ensures var g := Delete(f, id, depth).value;
      && (forall x :: x in g <==> x in f && x != id && !Below(f, x, id))
      && (forall x :: x in g ==> g[x] == f[x])
      && (forall x :: x in g && g[x].parent.Some? ==> g[x].parent.value in f ==> g[x].parent.value in g)
  {
    DeleteExact(f, id, depth);
    var g := Delete(f, id, depth).value;
    forall x | x in g && g[x].parent.Some? && g[x].parent.value in f ensures g[x].parent.value in g {
      var p := f[x].parent.value;
      assert Up(f, x, 1) == Some(p);
      assert Below(f, x, p);
      if p !in g && p != id { BelowTrans(f, x, p, id); }
    }
  }

  // ---------------------------------------------------------------------------
  // The hierarchy the handlers mean to keep
  // ---------------------------------------------------------------------------

  /** validateParentForType, against the stored nodes. */
  predicate ParentFits(f: Forest, kind: Kind, parent: Option<nat>) {
    || kind.Header?
    || (&& parent.Some? && parent.value in f
        && (kind.Category? ==> f[parent.value].kind.Header?)
        && (kind.Subcategory? ==> f[parent.value].kind.Category?))
  }

  function Level(kind: Kind): nat {
    match kind case Header => 0 case Category => 1 case Subcategory => 2
  }

  predicate Placed(f: Forest, node: Node) {
    if node.kind.Header? then node.parent.None? else ParentFits(f, node.kind, node.parent)
  }

  ghost predicate WellTyped(f: Forest) {
    forall id :: id in f ==> Placed(f, f[id])
  }

  lemma {:induction false} ClimbLowersLevel(f: Forest, x: nat, n: nat)
    requires WellTyped(f) && x in f && Up(f, x, n).Some?
    ensures Up(f, x, n).value in f
    ensures Level(f[Up(f, x, n).value].kind) + n == Level(f[x].kind)
    decreases n
  {
    if n > 0 {
      assert Placed(f, f[x]);
      ClimbLowersLevel(f, f[x].parent.value, n - 1);
    }
  }

  /** Three levels at most, and no node above itself. */
  lemma WellTypedIsForest(f: Forest, x: nat)
    requires WellTyped(f) && x in f
    ensures Up(f, x, Level(f[x].kind) + 1).None? && !OnCycle(f, x)
  {
    if Up(f, x, Level(f[x].kind) + 1).Some? { ClimbLowersLevel(f, x, Level(f[x].kind) + 1); }
    forall n: nat | n > 0 && Up(f, x, n).Some? ensures Up(f, x, n) != Some(x) { ClimbLowersLevel(f, x, n); }
  }

  /** What an accepted update stores. */
  function Edited(f: Forest, id: nat, kind: Kind, parent: Option<nat>): Option<Forest> {
    if id in f && ParentFits(f, kind, parent) then Some(f[id := Node(kind, parent)]) else None
  }

  /**
   * An accepted update keeps the hierarchy exactly when a header is given no parent and the
   * type either stays or is changed on a childless node that is not put under itself.
   */
  lemma EditKeepsHierarchyIff(f: Forest, id: nat, kind: Kind, parent: Option<nat>)
    requires WellTyped(f) && Edited(f, id, kind, parent).Some?
    ensures WellTyped(Edited(f, id, kind, parent).value)
       <==> (kind.Header? ==> parent.None?)
            && (kind == f[id].kind || (Children(f, id) == {} && parent != Some(id)))
  {
    var g := Edited(f, id, kind, parent).value;
    if kind != f[id].kind && Children(f, id) != {} {
      var c :| c in Children(f, id);
      assert Placed(f, f[c]);
      if c == id { WellTypedIsForest(f, id); ChildIsBelow(f, id, id); }
      assert g[c] == f[c] && !Placed(g, g[c]);
    }
    if (kind.Header? ==> parent.None?) && (kind == f[id].kind || (Children(f, id) == {} && parent != Some(id))) {
      forall x | x in g ensures Placed(g, g[x]) {
        if x != id {
          assert Placed(f, f[x]);
          assert f[x].parent == Some(id) ==> x in Children(f, id);
        }
      }
    }
    assert g[id] == Node(kind, parent);
    assert WellTyped(g) ==> Placed(g, g[id]);
  }

  // ---------------------------------------------------------------------------
  // Runs
  // ---------------------------------------------------------------------------

  /** A request; an update leaves out what it does not send. */
  datatype Request =
    | Create(id: nat, kind: Kind, parent: Option<nat>)
    | Update(id: nat, newKind: Option<Kind>, newParent: Option<Option<nat>>)
    | Remove(id: nat)

  function SentKind(f: Forest, r: Request): Kind
    requires r.Update? && r.id in f
  {
    r.newKind.GetOr(f[r.id].kind)
  }

  function SentParent(f: Forest, r: Request): Option<nat>
    requires r.Update? && r.id in f
  {
    r.newParent.GetOr(f[r.id].parent)
  }

  /** The stored nodes once the request is answered; None if it never is. */
  ghost function Serve(f: Forest, r: Request): Option<Forest> {
    match r
    case Create(id, kind, parent) =>
      Some(if id !in f && ParentFits(f, kind, parent) then f[id := Node(kind, parent)] else f)
    case Update(id, _, _) =>
      Some(if id in f then Edited(f, id, SentKind(f, r), SentParent(f, r)).GetOr(f) else f)
    case Remove(id) =>
      if id in f then Delete(f, id, |f.Keys| + 1) else Some(f)
  }

  ghost function Run(f: Forest, rs: seq<Request>): Option<Forest>
    decreases |rs|
  {
    if rs == [] then Some(f)
    else match Serve(f, rs[0])
      case None => None
      case Some(g) => Run(g, rs[1..])
  }

  /** What the handlers do not check about a request they accept. */
  ghost predicate Careful(f: Forest, r: Request) {
    match r
    case Create(id, kind, parent) => id !in f && kind.Header? ==> parent.None?
    case Update(id, _, _) =>
      id in f && ParentFits(f, SentKind(f, r), SentParent(f, r)) ==>
        && (SentKind(f, r).Header? ==> SentParent(f, r).None?)
        && (SentKind(f, r) == f[id].kind || (Children(f, id) == {} && SentParent(f, r) != Some(id)))
    case Remove(_) => true
  }

  ghost predicate AllCareful(f: Forest, rs: seq<Request>)
    decreases |rs|
  {
    rs != [] ==> Careful(f, rs[0]) && Serve(f, rs[0]).Some? && AllCareful(Serve(f, rs[0]).value, rs[1..])
  }

  /** Deletion never needs more nested calls than there are levels below the node's type. */
  lemma {:induction false} DeletionIsShallow(f: Forest, id: nat, depth: nat)
    requires WellTyped(f) && id in f && depth + Level(f[id].kind) >= 3
    ensures Delete(f, id, depth) == Some(Without(f, Subtree(f, id)))
    decreases depth, 0, 0
  {
    WellTypedIsForest(f, id);
    DeletingAllIsShallow(f, id, Children(f, id), depth - 1);
    DeleteExact(f, id, depth);
  }

  lemma {:induction false} DeletingAllIsShallow(f: Forest, id: nat, cs: set<nat>, depth: nat)
    requires WellTyped(f) && id in f && cs == Children(f, id) && depth + Level(f[id].kind) >= 2
    ensures DeleteAll(f, cs, depth).Some?
    decreases depth, 1, |cs|
  {
    if cs != {} {
      var c := Pick(cs);
      ChildIsOneLevelDown(f, id, c);
      DeletionIsShallow(f, c, depth);
      WellTypedIsForest(f, c);
      AfterChild(f, id, c);
      RemovalKeepsHierarchy(f, c);
      DeletingAllIsShallow(Without(f, Subtree(f, c)), id, cs - {c}, depth);
    }
  }

  lemma ChildIsOneLevelDown(f: Forest, id: nat, c: nat)
    requires WellTyped(f) && id in f && c in Children(f, id)
    ensures Level(f[c].kind) == Level(f[id].kind) + 1
  {
  }

  lemma RemovalKeepsHierarchy(f: Forest, id: nat)
    requires WellTyped(f) && id in f
    ensures WellTyped(Without(f, Subtree(f, id)))
  {
    var g := Without(f, Subtree(f, id));
    forall x | x in g ensures Placed(g, g[x]) {
      assert Placed(f, f[x]);
      if f[x].parent.Some? {
        assert Up(f, x, 1) == f[x].parent;
        ParentSurvives(f, id, x);
      }
    }
  }

  lemma ParentSurvives(f: Forest, id: nat, x: nat)
    requires x in f && x !in Subtree(f, id) && f[x].parent.Some?
    ensures f[x].parent.value !in Subtree(f, id)
  {
    var p := f[x].parent.value;
    assert Up(f, x, 1) == Some(p);
    assert Below(f, x, p);
    if p in Descendants(f, id) { BelowTrans(f, x, p, id); }
  }

  /** Every request is answered, and it keeps the hierarchy exactly when it is careful. */
  lemma ServeKeepsIff(f: Forest, r: Request)
    requires WellTyped(f)
    ensures Serve(f, r).Some?
    ensures WellTyped(Serve(f, r).value) <==> Careful(f, r)
  {
    match r
    case Create(id, kind, parent) =>
      var g := Serve(f, r).value;
      forall x | x in f && id !in f ensures x in g && Placed(g, g[x]) {
        assert Placed(f, f[x]);
      }
      assert id !in f && ParentFits(f, kind, parent) ==> (Placed(g, g[id]) <==> Careful(f, r));
    case Update(id, _, _) =>
      if id in f && ParentFits(f, SentKind(f, r), SentParent(f, r)) {
        EditKeepsHierarchyIff(f, id, SentKind(f, r), SentParent(f, r));
      }
    case Remove(id) =>
      if id in f {
        assert {id} <= f.Keys;
        Smaller({id}, f.Keys);
        DeletionDepthOnWellTyped(f, id);
        RemovalKeepsHierarchy(f, id);
      }
  }

  lemma DeletionDepthOnWellTyped(f: Forest, id: nat)
    requires WellTyped(f) && id in f
    ensures Delete(f, id, |f.Keys| + 1) == Some(Without(f, Subtree(f, id)))
  {
    WellTypedIsForest(f, id);
    Smaller(Descendants(f, id), f.Keys);
    DeleteReturns(f, id, |f.Keys| + 1);
    DeleteExact(f, id, |f.Keys| + 1);
  }

  /** Careful runs of creations, updates and deletions keep a forest of three levels and always end. */
  lemma {:induction false} CarefulRunsKeepForest(f: Forest, rs: seq<Request>)
    requires WellTyped(f) && AllCareful(f, rs)
    ensures Run(f, rs).Some? && WellTyped(Run(f, rs).value)
    ensures forall x :: x in Run(f, rs).value ==> Up(Run(f, rs).value, x, 3).None? && !OnCycle(Run(f, rs).value, x)
    decreases |rs|
  {
    if rs == [] {
      forall x | x in f ensures Up(f, x, 3).None? && !OnCycle(f, x) {
        WellTypedIsForest(f, x);
        if Up(f, x, 3).Some? { ClimbLowersLevel(f, x, 3); }
      }
    } else {
      ServeKeepsIff(f, rs[0]);
      CarefulRunsKeepForest(Serve(f, rs[0]).value, rs[1..]);
    }
  }

  lemma RunOne(f: Forest, r: Request)
    ensures Run(f, [r]) == Serve(f, r)
  {
  }

  lemma RunTwo(f: Forest, r: Request, s: Request)
    requires Serve(f, r).Some?
    ensures Run(f, [r, s]) == Serve(Serve(f, r).value, s)
  {
    assert [r, s][1..] == [s];
    RunOne(Serve(f, r).value, s);
  }

  /** Without care a cycle is reachable, and deleting a node on it never ends: a header may be given its own child as parent. */
  lemma HeaderUnderItsChild()
    ensures var rs := [Create(1, Header, None), Create(2, Category, Some(1)), Update(1, None, Some(Some(2)))];
      && Run(map[], rs).Some?
      && OnCycle(Run(map[], rs).value, 1)
      && forall depth: nat :: Delete(Run(map[], rs).value, 1, depth).None?
  {
    Closing(Update(1, None, Some(Some(2))), Header);
  }

  /** The same by changing a type instead: the header becomes a subcategory of its own category. */
  lemma TypeChangeClosesCycle()
    ensures var rs := [Create(1, Header, None), Create(2, Category, Some(1)), Update(1, Some(Subcategory), Some(Some(2)))];
      && Run(map[], rs).Some?
      && OnCycle(Run(map[], rs).value, 1)
      && forall depth: nat :: Delete(Run(map[], rs).value, 1, depth).None?
  {
    Closing(Update(1, Some(Subcategory), Some(Some(2))), Subcategory);
  }

  lemma Closing(last: Request, kind: Kind)
    requires last.Update? && last.id == 1 && last.newKind.GetOr(Header) == kind && last.newParent == Some(Some(2))
    requires kind.Header? || kind.Subcategory?
    ensures var rs := [Create(1, Header, None), Create(2, Category, Some(1)), last];
      && Run(map[], rs).Some?
      && OnCycle(Run(map[], rs).value, 1)
      && forall depth: nat :: Delete(Run(map[], rs).value, 1, depth).None?
  {
    var first, second := Create(1, Header, None), Create(2, Category, Some(1));
    var f1: Forest := map[1 := Node(Header, None)];
    var f2 := f1[2 := Node(Category, Some(1))];
    var f3 := f2[1 := Node(kind, Some(2))];
    assert Serve(map[], first) == Some(f1);
    assert Serve(f1, second) == Some(f2);
    assert Serve(f2, last) == Some(f3);
    RunTwo(f1, second, last);
    assert [first, second, last][1..] == [second, last];
    assert Up(f3, 1, 2) == Up(f3, 2, 1) == Up(f3, 1, 0);
    DeletionTerminatesIff(f3, 1);
  }

  // ---------------------------------------------------------------------------
  // The handlers, on the stored collection
  // ---------------------------------------------------------------------------

  class CategoryDesk {
    var nodes: Forest

    constructor ()
      ensures nodes == map[]
    {
      nodes := map[];
    }

    /** createCategory: the store picks an unused id. */
    method Create(id: nat, kind: Kind, parent: Option<nat>) returns (ok: bool)
      requires id !in nodes
      modifies this
      ensures ok <==> ParentFits(old(nodes), kind, parent)
      ensures Serve(old(nodes), Request.Create(id, kind, parent)) == Some(nodes)
    {
      ok := ParentFits(nodes, kind, parent);
      if ok { nodes := nodes[id := Node(kind, parent)]; }
    }

    method Update(id: nat, newKind: Option<Kind>, newParent: Option<Option<nat>>) returns (ok: bool)
      modifies this
      ensures Serve(old(nodes), Request.Update(id, newKind, newParent)) == Some(nodes)
      ensures !ok ==> nodes == old(nodes)
    {
      if id !in nodes { return false; }
      var kind := newKind.GetOr(nodes[id].kind);
      var parent := newParent.GetOr(nodes[id].parent);
      ok := ParentFits(nodes, kind, parent);
      if ok { nodes := nodes[id := Node(kind, parent)]; }
    }

    /** deleteCategory. */
    method Remove(id: nat) returns (found: bool)
      requires id in nodes ==> !OnCycle(nodes, id)
      modifies this
      ensures found <==> id in old(nodes)
      ensures Serve(old(nodes), Request.Remove(id)) == Some(nodes)
      ensures nodes == Without(old(nodes), if found then Subtree(old(nodes), id) else {})
    {
      found := id in nodes;
      if found {
        ghost var f := nodes;
        DeleteWithChildren(id);
        Smaller(Descendants(f, id), f.Keys);
        DeleteReturns(f, id, |f.Keys| + 1);
        DeleteExact(f, id, |f.Keys| + 1);
      }
    }

    /** deleteWithChildren: the children as found on entry are removed one by one, then the node. */
    method DeleteWithChildren(id: nat)
      requires id in nodes && !OnCycle(nodes, id)
      modifies this
      ensures nodes == Without(old(nodes), Subtree(old(nodes), id))
      decreases |Descendants(nodes, id)|
    {
      ghost var f := nodes;
      var children := Children(nodes, id);
      while children != {}
        invariant id in nodes && children == Children(nodes, id) && !OnCycle(nodes, id)
        invariant Descendants(nodes, id) <= Descendants(f, id)
        invariant Without(nodes, Subtree(nodes, id)) == Without(f, Subtree(f, id))
        decreases |children|
      {
        var child :| child in children;
        ChildHasFewer(nodes, id, child);
        Smaller(Descendants(nodes, id), Descendants(f, id));
        AfterChild(nodes, id, child);
        DeleteWithChildren(child);
        children := children - {child};
      }
      NoChildrenNoDescendants(nodes, id);
      nodes := nodes - {id};
    }
  }
}
