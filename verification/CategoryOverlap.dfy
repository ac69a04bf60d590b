/**
 * Categories created while others are deleted (categoryController.createCategory,
 * deleteCategory): a creation checks its parent and inserts later; a deletion reads the
 * children of a node, deletes them one by one, and then deletes the node.
 */
module CategoryOverlap {
  import opened Wrappers

  /** The parent of each stored node. */
  type Tree = map<nat, Option<nat>>

  /** One call of the recursive deletion; `left` is what it has read and not deleted yet, None before it looks. */
  datatype Frame = Frame(node: nat, left: Option<seq<nat>>)

  /** A creation that has passed its check. */
  datatype Creation = Creation(id: nat, parent: Option<nat>, inserted: bool)

  /** The calls of each deletion, the innermost last. */
  datatype World = World(tree: Tree, creations: seq<Creation>, deletions: seq<seq<Frame>>)

  datatype Event =
    | Check(id: nat, parent: Option<nat>)
    | Insert(c: nat)
    | Ask(node: nat)
    | Walk(d: nat, found: seq<nat>)     // `found` is the order in which the store returns the children

  predicate Stored(tree: Tree, parent: Option<nat>) {
    parent.Some? ==> parent.value in tree
  }

  predicate IsChild(tree: Tree, n: nat, parent: nat) {
    n in tree && tree[n] == Some(parent)
  }

  ghost predicate Children(tree: Tree, node: nat, found: seq<nat>) {
    forall n :: n in found <==> IsChild(tree, n, node)
  }

  predicate CanInsert(w: World, c: nat) {
    c < |w.creations| && !w.creations[c].inserted && w.creations[c].id !in w.tree
  }

  /** The next call of a deletion: look for children, go into the next one, or delete the node. */
  ghost function Next(tree: Tree, stack: seq<Frame>, found: seq<nat>): (Tree, seq<Frame>)
    requires stack != []
  {
    var top, outer := stack[|stack| - 1], stack[..|stack| - 1];
    match top.left
    case None => (tree, if Children(tree, top.node, found) then outer + [top.(left := Some(found))] else stack)
    case Some(left) =>
      if left != [] then (tree, outer + [top.(left := Some(left[1..])), Frame(left[0], None)])
      else (tree - {top.node}, outer)
  }

  ghost function Apply(w: World, e: Event): World {
    match e
    case Check(id, parent) =>
      if Stored(w.tree, parent) then w.(creations := w.creations + [Creation(id, parent, false)]) else w
    case Insert(c) =>
      if !CanInsert(w, c) then w
      else
        var creation := w.creations[c];
        w.(tree := w.tree[creation.id := creation.parent], creations := w.creations[c := creation.(inserted := true)])
    case Ask(node) => if node in w.tree then w.(deletions := w.deletions + [[Frame(node, None)]]) else w
    case Walk(d, found) =>
      if d >= |w.deletions| || w.deletions[d] == [] then w
      else
        var r := Next(w.tree, w.deletions[d], found);
        w.(tree := r.0, deletions := w.deletions[d := r.1])
  }

  ghost function Run(w: World, es: seq<Event>): World
    decreases |es|
  {
    if es == [] then w else Run(Apply(w, es[0]), es[1..])
  }

  // ---------------------------------------------------------------------------
  // No node without its parent
  // ---------------------------------------------------------------------------

  ghost predicate NoOrphans(tree: Tree) {
    forall n :: n in tree ==> Stored(tree, tree[n])
  }

  /** The node the step deletes, if it deletes one. */
  predicate Deletes(w: World, e: Event, node: nat) {
    && e.Walk? && e.d < |w.deletions| && w.deletions[e.d] != []
    && var top := w.deletions[e.d][|w.deletions[e.d]| - 1]; top.left == Some([]) && top.node == node
  }

  /** A node is inserted under a parent that is gone, or deleted while another has it as parent. */
  ghost predicate Orphans(w: World, e: Event) {
    || (e.Insert? && CanInsert(w, e.c) && w.creations[e.c].parent != Some(w.creations[e.c].id)
        && !Stored(w.tree, w.creations[e.c].parent))
    || exists node, n :: Deletes(w, e, node) && node in w.tree && n != node && IsChild(w.tree, n, node)
  }

  lemma DeletionOrphansIff(tree: Tree, node: nat)
    requires NoOrphans(tree)
    ensures NoOrphans(tree - {node}) <==> !(node in tree && exists n :: n != node && IsChild(tree, n, node))
  {
    var less := tree - {node};
    if n :| node in tree && n != node && IsChild(tree, n, node) {
      assert n in less && !Stored(less, less[n]);
    } else {
      forall n | n in less ensures Stored(less, less[n]) {
        assert Stored(tree, tree[n]);
        assert tree[n] == Some(node) ==> IsChild(tree, n, node);
      }
    }
  }

  lemma InsertionOrphansIff(tree: Tree, id: nat, parent: Option<nat>)
    requires NoOrphans(tree) && id !in tree
    ensures NoOrphans(tree[id := parent]) <==> parent == Some(id) || Stored(tree, parent)
  {
    var more := tree[id := parent];
    assert more[id] == parent;
    forall n | n in tree ensures Stored(more, more[n]) { assert Stored(tree, tree[n]); }
  }

  /** Every node keeps its parent exactly when the step does neither. */
  lemma NoOrphansKeptIff(w: World, e: Event)
    requires NoOrphans(w.tree)
    ensures NoOrphans(Apply(w, e).tree) <==> !Orphans(w, e)
  {
    if e.Insert? && CanInsert(w, e.c) {
      InsertionOrphansIff(w.tree, w.creations[e.c].id, w.creations[e.c].parent);
    } else if e.Walk? && e.d < |w.deletions| && w.deletions[e.d] != [] {
      var top := w.deletions[e.d][|w.deletions[e.d]| - 1];
      if top.left == Some([]) {
        DeletionOrphansIff(w.tree, top.node);
        assert forall node :: Deletes(w, e, node) <==> node == top.node;
      }
    }
    hide NoOrphans, IsChild, Stored;
  }

  ghost predicate NeverOrphans(w: World, es: seq<Event>)
    decreases |es|
  {
    es != [] ==> !Orphans(w, es[0]) && NeverOrphans(Apply(w, es[0]), es[1..])
  }

  ghost predicate NoOrphansThroughout(w: World, es: seq<Event>)
    decreases |es|
  {
    NoOrphans(w.tree) && (es != [] ==> NoOrphansThroughout(Apply(w, es[0]), es[1..]))
  }

  lemma {:induction false} NoOrphansThroughoutIff(w: World, es: seq<Event>)
    requires NoOrphans(w.tree)
    ensures NoOrphansThroughout(w, es) <==> NeverOrphans(w, es)
    decreases |es|
  {
    hide Apply, NoOrphans, Orphans;
    if es != [] {
      NoOrphansKeptIff(w, es[0]);
      if NoOrphans(Apply(w, es[0]).tree) { NoOrphansThroughoutIff(Apply(w, es[0]), es[1..]); }
    }
  }

  // ---------------------------------------------------------------------------
  // When deletions leave nothing behind
  // ---------------------------------------------------------------------------

  /** The children of a node that are left for its call to delete: those it has read, and the one it is at. */
  ghost predicate Expects(stack: seq<Frame>, j: nat, n: nat)
    requires j < |stack| && stack[j].left.Some?
  {
    n in stack[j].left.value || (j + 1 < |stack| && stack[j + 1].node == n)
  }

  ghost predicate Tracks(tree: Tree, stack: seq<Frame>) {
    forall j, n :: 0 <= j < |stack| && stack[j].left.Some? && n != stack[j].node && IsChild(tree, n, stack[j].node)
      ==> Expects(stack, j, n)
  }

  ghost predicate AllTrack(w: World) {
    forall d :: 0 <= d < |w.deletions| ==> Tracks(w.tree, w.deletions[d])
  }

  /** No node is inserted under one that is gone, or whose children a deletion has already read. */
  ghost predicate Timely(w: World, e: Event) {
    e.Insert? && CanInsert(w, e.c) && w.creations[e.c].parent.Some? ==>
      var parent := w.creations[e.c].parent.value;
      && (parent in w.tree || parent == w.creations[e.c].id)
      && forall d, j :: 0 <= d < |w.deletions| && 0 <= j < |w.deletions[d]| && w.deletions[d][j].node == parent
           ==> w.deletions[d][j].left.None?
  }

  lemma FewerTracked(tree: Tree, less: Tree, stack: seq<Frame>)
    requires Tracks(tree, stack) && forall n :: n in less ==> n in tree && less[n] == tree[n]
    ensures Tracks(less, stack)
  {
    forall j, n | 0 <= j < |stack| && stack[j].left.Some? && n != stack[j].node && IsChild(less, n, stack[j].node)
      ensures Expects(stack, j, n)
    {
      assert IsChild(tree, n, stack[j].node);
    }
  }

  lemma WalkTracks(tree: Tree, stack: seq<Frame>, found: seq<nat>)
    requires stack != [] && Tracks(tree, stack)
    ensures Tracks(Next(tree, stack, found).0, Next(tree, stack, found).1)
  {
    var r := Next(tree, stack, found);
    var last := |stack| - 1;
    forall j, n | 0 <= j < |r.1| && r.1[j].left.Some? && n != r.1[j].node && IsChild(r.0, n, r.1[j].node)
      ensures Expects(r.1, j, n)
    {
      assert IsChild(tree, n, r.1[j].node);
      if j < last {
        assert r.1[j] == stack[j] && Expects(stack, j, n);
        assert stack[last].left == Some([]) ==> n != stack[last].node;
      } else if stack[last].left.Some? {
        assert Expects(stack, last, n);
      }
    }
  }

  lemma InsertTracks(w: World, c: nat, d: nat)
    requires AllTrack(w) && CanInsert(w, c) && Timely(w, Insert(c)) && d < |w.deletions|
    ensures Tracks(Apply(w, Insert(c)).tree, w.deletions[d])
  {
    var u, stack := Apply(w, Insert(c)), w.deletions[d];
    forall j, n | 0 <= j < |stack| && stack[j].left.Some? && n != stack[j].node && IsChild(u.tree, n, stack[j].node)
      ensures Expects(stack, j, n)
    {
      if n != w.creations[c].id { assert IsChild(w.tree, n, stack[j].node); }
    }
  }

  lemma TracksStay(w: World, e: Event)
    requires AllTrack(w) && Timely(w, e)
    ensures AllTrack(Apply(w, e))
  {
    var u := Apply(w, e);
    forall d | 0 <= d < |u.deletions| ensures Tracks(u.tree, u.deletions[d]) {
      if e.Walk? && e.d < |w.deletions| && w.deletions[e.d] != [] {
        if d == e.d { WalkTracks(w.tree, w.deletions[d], e.found); } else { FewerTracked(w.tree, u.tree, w.deletions[d]); }
      } else if e.Insert? && CanInsert(w, e.c) {
        InsertTracks(w, e.c, d);
      } else if d < |w.deletions| {
        assert u.tree == w.tree && u.deletions[d] == w.deletions[d];
      }
    }
  }

  lemma TimelyOrphansNone(w: World, e: Event)
    requires AllTrack(w) && Timely(w, e)
    ensures !Orphans(w, e)
  {
    if e.Walk? && e.d < |w.deletions| && w.deletions[e.d] != [] {
      var stack := w.deletions[e.d];
      var last := |stack| - 1;
      if stack[last].left == Some([]) {
        forall n | n != stack[last].node ensures !IsChild(w.tree, n, stack[last].node) { assert !Expects(stack, last, n); }
      }
    }
  }

  ghost predicate AllTimely(w: World, es: seq<Event>)
    decreases |es|
  {
    es != [] ==> Timely(w, es[0]) && AllTimely(Apply(w, es[0]), es[1..])
  }

  lemma {:induction false} TimelyNeverOrphans(w: World, es: seq<Event>)
    requires AllTrack(w) && AllTimely(w, es)
    ensures NeverOrphans(w, es)
    decreases |es|
  {
    hide Apply, Orphans, AllTrack, Timely;
    if es != [] {
      TimelyOrphansNone(w, es[0]);
      TracksStay(w, es[0]);
      TimelyNeverOrphans(Apply(w, es[0]), es[1..]);
    }
  }

  /** Any number of deletions and creations at once: while no creation comes late, no node is ever without its parent. */
  lemma DeletionsLeaveNoOrphans(tree: Tree, es: seq<Event>)
    requires NoOrphans(tree) && AllTimely(World(tree, [], []), es)
    ensures NoOrphansThroughout(World(tree, [], []), es)
  {
    TimelyNeverOrphans(World(tree, [], []), es);
    NoOrphansThroughoutIff(World(tree, [], []), es);
  }

  // ---------------------------------------------------------------------------
  // A creation that comes late
  // ---------------------------------------------------------------------------

  lemma RunTwo(w: World, a: Event, b: Event)
    ensures Run(w, [a, b]) == Apply(Apply(w, a), b)
  {
    hide Apply;
    assert [a, b][1..] == [b] && [b][1..] == [];
    assert Run(Apply(w, a), [b]) == Run(Apply(Apply(w, a), b), []);
  }

  lemma {:induction false} RunConcat(w: World, a: seq<Event>, b: seq<Event>)
    ensures Run(w, a + b) == Run(Run(w, a), b)
    decreases |a|
  {
    hide Apply;
    if a == [] {
      assert a + b == b;
    } else {
      RunConcat(Apply(w, a[0]), a[1..], b);
      assert (a + b)[1..] == a[1..] + b;
    }
  }

  lemma RunOne(w: World, e: Event)
    ensures Run(w, [e]) == Apply(w, e)
  {
    hide Apply;
    assert [e][1..] == [];
    assert Run(w, [e]) == Run(Apply(w, e), []);
  }

  lemma FindsNone(tree: Tree, parent: nat)
    requires Children(tree, parent, [])
    ensures Next(tree, [Frame(parent, None)], []) == (tree, [Frame(parent, Some([]))])
  {
    assert [Frame(parent, None)][..0] == [];
    assert Next(tree, [Frame(parent, None)], []).1 == [Frame(parent, Some([]))];
  }

  lemma DeletesNode(tree: Tree, parent: nat)
    ensures Next(tree, [Frame(parent, Some([]))], []) == (tree - {parent}, [])
  {
    assert [Frame(parent, Some([]))][..0] == [];
  }

  lemma LooksAndDeletes(parent: nat, creations: seq<Creation>)
    ensures Apply(Apply(World(map[parent := None], creations, [[Frame(parent, None)]]), Walk(0, [])), Walk(0, []))
         == World(map[], creations, [[]])
  {
    var tree: Tree := map[parent := None];
    assert Children(tree, parent, []);
    FindsNone(tree, parent);
    DeletesNode(tree, parent);
    hide Next, Children;
    assert tree - {parent} == map[];
  }

  /** The parent is checked, found childless and deleted; then the child is inserted. */
  lemma LateCreationIsOrphan(parent: nat, child: nat)
    requires parent != child
    ensures Run(World(map[parent := None], [], []), [Check(child, Some(parent)), Ask(parent)] + [Walk(0, []), Walk(0, [])] + [Insert(0)]).tree
         == map[child := Some(parent)]
  {
    var start, walk := [Check(child, Some(parent)), Ask(parent)], [Walk(0, []), Walk(0, [])];
    var creations := [Creation(child, Some(parent), false)];
    var w0 := World(map[parent := None], [], []);
    var w2, w4 := World(map[parent := None], creations, [[Frame(parent, None)]]), World(map[], creations, [[]]);
    RunTwo(w0, Check(child, Some(parent)), Ask(parent));
    RunTwo(w2, Walk(0, []), Walk(0, []));
    RunOne(w4, Insert(0));
    RunConcat(w0, start, walk);
    RunConcat(w0, start + walk, [Insert(0)]);
    hide Run, Next;
    LooksAndDeletes(parent, creations);
  }
}
