/**
 * The update handler of a seller with its retry loop.
 */
module ProductHandler {
  import opened Wrappers
  import opened ProductEdit

  lemma {:induction false} RunMore(w: World, played: seq<Event>, more: seq<Event>, ev: Event)
    ensures Run(w, played + more + [ev]) == Apply(Run(Run(w, played), more), ev)
  {
    hide Apply;
    RunConcat(w, played, more);
    RunConcat(w, played + more, [ev]);
    RunOne(Run(w, played + more), ev);
  }

  ghost predicate Foreign(evs: seq<Event>, e: nat) {
    forall k :: 0 <= k < |evs| ==> !About(evs[k], e)
  }

  lemma {:induction false} ForeignLeavesEdit(w: World, evs: seq<Event>, e: nat)
    requires e in w.edits && Foreign(evs, e)
    ensures e in Run(w, evs).edits && Run(w, evs).edits[e] == w.edits[e]
    decreases |evs|
  {
    if evs != [] {
      assert !About(evs[0], e);
      ForeignLeavesEdit(Apply(w, evs[0]), evs[1..], e);
    }
  }

  class ProductDesk {
    var world: World

    constructor (core: Core)
      ensures world == World(core, map[])
    {
      world := World(core, map[]);
    }

    /** Whatever else happens to the product between two awaited calls. */
    method Meanwhile(evs: seq<Event>)
      modifies this
      ensures world == Run(old(world), evs)
    {
      var i := 0;
      while i < |evs|
        invariant 0 <= i <= |evs|
        invariant Run(world, evs[i..]) == Run(old(world), evs)
      {
        world := Apply(world, evs[i]);
        i := i + 1;
      }
    }

    /** Record where the handler stands. */
    method Note(e: nat, work: Work)
      modifies this
      ensures world == old(world).(edits := old(world).edits[e := work])
    {
      world := world.(edits := world.edits[e := work]);
    }

    /**
     * updateProduct for a seller: read, decide, then at most three guarded writes with a new
     * read after each miss. `before[k]` and `after[k]` happen around the k-th write. The
     * handler plays a run of the machine above, and always answers.
     */
    method Update(e: nat, edit: Edit, before: seq<seq<Event>>, after: seq<seq<Event>>, at: seq<nat>)
      returns (saved: bool, ghost played: seq<Event>)
      requires e !in world.edits
      requires |before| == |after| == |at| == 3
      requires forall k :: 0 <= k < 3 ==> Foreign(before[k], e) && Foreign(after[k], e)
      modifies this
      ensures world == Run(old(world), played)
      ensures e in world.edits && world.edits[e] == if saved then Landed else Refused
    {
      played, saved := [Open(e, edit)], false;
      RunOne(world, Open(e, edit));
      if world.core.doc.None? || (edit.forms.Some? && !SkusDistinct(edit.forms.value)) {
        Note(e, Refused);
        return;
      }
      var product := world.core.doc.value;
      var data, status := Filled(Arrived(edit), product), Verdict(edit, product);
      Note(e, Writing(data, status, product, 0));
      var current, attempt := Some(product), 0;
      while attempt < 3 && current.Some?
        invariant 0 <= attempt <= 3 && !saved
        invariant world == Run(old(world), played)
        invariant e in world.edits && world.edits[e] ==
                    if attempt < 3 && current.Some? then Writing(data, status, current.value, attempt) else Refused
      {
        saved := Try(e, data, status, current.value, attempt, before[attempt], at[attempt]);
        RunMore(old(world), played, before[attempt], Write(e, at[attempt]));
        played := played + before[attempt] + [Write(e, at[attempt])];
        if saved { return; }
        current := Again(e, data, status, attempt, after[attempt]);
        RunMore(old(world), played, after[attempt], Reread(e));
        played := played + after[attempt] + [Reread(e)];
        attempt := attempt + 1;
        if attempt < 3 && current.Some? { data := Filled(data, current.value); }
      }
    }

    /** findOneAndUpdate, guarded by the updatedAt last read. */
    method Try(e: nat, data: Edit, status: Status, seen: Product, attempt: nat, others: seq<Event>, at: nat) returns (saved: bool)
      requires e in world.edits && world.edits[e] == Writing(data, status, seen, attempt) && Foreign(others, e)
      modifies this
      ensures world == Apply(Run(old(world), others), Write(e, at))
      ensures e in world.edits && world.edits[e] == if saved then Landed else Missed(data, status, attempt)
    {
      ForeignLeavesEdit(world, others, e);
      Meanwhile(others);
      var c := world.core;
      saved := c.doc.Some? && c.doc.value.stamp == seen.stamp;
      if saved {
        world := World(Land(c, Writing(data, status, seen, attempt), at), world.edits[e := Landed]);
      } else {
        Note(e, Missed(data, status, attempt));
      }
    }

    /** The read after a miss; the answer is given up after the third. */
    method Again(e: nat, data: Edit, status: Status, attempt: nat, others: seq<Event>) returns (current: Option<Product>)
      requires e in world.edits && world.edits[e] == Missed(data, status, attempt) && Foreign(others, e)
      modifies this
      ensures world == Apply(Run(old(world), others), Reread(e))
      ensures e in world.edits && world.edits[e] ==
                if current.Some? && attempt + 1 < 3
                then Writing(Filled(data, current.value), status, current.value, attempt + 1) else Refused
    {
      ForeignLeavesEdit(world, others, e);
      Meanwhile(others);
      current := world.core.doc;
      Note(e, if current.Some? && attempt + 1 < 3
              then Writing(Filled(data, current.value), status, current.value, attempt + 1) else Refused);
    }
  }
}
