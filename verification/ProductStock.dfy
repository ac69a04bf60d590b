/**
 * No stock update is lost between seller edits, sales and adjustments of one product: the
 * account of each variant, and exactly when an edit keeps it.
 */
module ProductStock {
  import opened Wrappers
  import opened ProductEdit

  // ---------------------------------------------------------------------------
  // Accounts
  // ---------------------------------------------------------------------------

  ghost predicate Distinct(vs: seq<Variant>) {
    forall i, j :: 0 <= i < j < |vs| ==> vs[i].line != vs[j].line
  }

  /** Each variant holds what its account was opened with plus every movement on it since. */
  ghost predicate Accounted(vs: seq<Variant>, opening: map<nat, int>, log: seq<(nat, int)>) {
    forall i :: 0 <= i < |vs| ==>
      && vs[i].line in opening
      && Level(vs[i]) == opening[vs[i].line] + Net(log, vs[i].line)
      && Level(vs[i]) >= 0
  }

  ghost predicate Numbered(c: Core) {
    && (forall l :: l in c.opening ==> l < c.next)
    && (forall k :: 0 <= k < |c.log| ==> c.log[k].0 < c.next)
  }

  ghost predicate Balanced(c: Core) {
    && Numbered(c)
    && (c.doc.Some? ==>
          && Distinct(Saved(c.doc.value))
          && Accounted(Saved(c.doc.value), c.opening, c.log)
          && c.doc.value.stock == Total(Saved(c.doc.value)))
  }

  lemma NetMore(log: seq<(nat, int)>, line: nat, delta: int, x: nat)
    ensures Net(log + [(line, delta)], x) == Net(log, x) + if line == x then delta else 0
  {
  }

  lemma {:induction false} NetUnknown(log: seq<(nat, int)>, x: nat)
    requires forall k :: 0 <= k < |log| ==> log[k].0 != x
    ensures Net(log, x) == 0
  {
    if log != [] { NetUnknown(log[..|log| - 1], x); }
  }

  lemma TotalChange(vs: seq<Variant>, k: nat, v: Variant)
    requires k < |vs|
    ensures Total(vs[k := v]) == Total(vs) - Max(0, Level(vs[k])) + Max(0, Level(v))
  {
    assert Levels(vs[k := v]) == Levels(vs)[k := Level(v)];
    StockSum.SumChange(Levels(vs), k, Level(v));
  }

  lemma ChangeAccounted(vs: seq<Variant>, k: nat, delta: int, opening: map<nat, int>, log: seq<(nat, int)>)
    requires Distinct(vs) && Accounted(vs, opening, log)
    requires k < |vs| && vs[k].stock.Some? && vs[k].stock.value + delta >= 0
    ensures var us := vs[k := vs[k].(stock := Some(vs[k].stock.value + delta))];
      && Distinct(us)
      && Accounted(us, opening, log + [(vs[k].line, delta)])
      && Total(us) == Total(vs) + delta
  {
    var us := vs[k := vs[k].(stock := Some(vs[k].stock.value + delta))];
    TotalChange(vs, k, us[k]);
    forall i | 0 <= i < |us|
      ensures Level(us[i]) == opening[us[i].line] + Net(log + [(vs[k].line, delta)], us[i].line) >= 0
    {
      NetMore(log, vs[k].line, delta, vs[i].line);
    }
  }

  /** A movement is booked on the account of the variant it changes; the self-heal has nothing to do. */
  lemma MovedKeeps(c: Core, target: Target, delta: int, at: nat)
    requires Balanced(c)
    ensures Balanced(Moved(c, target, delta, at))
  {
    var d := Moved(c, target, delta, at);
    if d != c {
      var p := c.doc.value;
      var k := if p.variants == [] then 0 else FirstTaking(p.variants, target, delta);
      var vs := Saved(p);
      ChangeAccounted(vs, k, delta, c.opening, c.log);
      assert Saved(d.doc.value) == vs[k := vs[k].(stock := Some(vs[k].stock.value + delta))];
    }
  }

  lemma TrackedKeeps(c: Core, id: nat, at: nat)
    requires Balanced(c)
    ensures Balanced(Tracked(c, id, at))
  {
    var d := Tracked(c, id, at);
    if d != c {
      var vs := Saved(c.doc.value);
      var k := FirstUntracked(vs, id);
      TotalChange(vs, k, vs[k].(stock := Some(0)));
    }
  }

  lemma {:induction false} KeepAllAt(forms: seq<Form>, saved: seq<Variant>, next: nat, i: nat)
    requires i < |forms|
    ensures KeepAll(forms, saved, next)[i] == Keep(forms[i], saved, next + i)
  {
    if i > 0 { KeepAllAt(forms[1..], saved, next + 1, i - 1); }
  }

  lemma {:induction false} OpeningsAt(forms: seq<Form>, saved: seq<Variant>, next: nat, i: nat)
    requires i < |forms| && Account(forms[i], saved).None?
    ensures next + i in Openings(forms, saved, next)
    ensures Openings(forms, saved, next)[next + i] == Max(0, forms[i].stock)
  {
    OpeningsRange(forms[1..], saved, next + 1);
    if i > 0 { OpeningsAt(forms[1..], saved, next + 1, i - 1); }
  }

  lemma {:induction false} OpeningsRange(forms: seq<Form>, saved: seq<Variant>, next: nat)
    ensures forall l :: l in Openings(forms, saved, next) ==> next <= l < next + |forms|
  {
    if forms != [] { OpeningsRange(forms[1..], saved, next + 1); }
  }

  lemma KeepAllDistinctIff(forms: seq<Form>, saved: seq<Variant>, next: nat)
    requires forall i :: 0 <= i < |forms| && Account(forms[i], saved).Some? ==> Account(forms[i], saved).value < next
    ensures Distinct(KeepAll(forms, saved, next)) <==> Apart(forms, saved)
  {
    var vs := KeepAll(forms, saved, next);
    forall i, j | 0 <= i < j < |forms|
      ensures vs[i].line == vs[j].line <==> Account(forms[i], saved).Some? && Account(forms[i], saved) == Account(forms[j], saved)
    {
      KeepAllAt(forms, saved, next, i);
      KeepAllAt(forms, saved, next, j);
      hide Account, KeepAll;
    }
    hide Account, KeepAll;
  }

  /** A new product's variants open one account each. */
  lemma CreatedKeeps(c: Core, ev: Event)
    requires Balanced(c) && ev.New? && (!c.born ==> c.doc.None?)
    ensures Balanced(Created(c, ev))
  {
    if !c.born {
      var d := Created(c, ev);
      var p := d.doc.value;
      OpeningsRange(Typed(ev.forms), [], c.next);
      if p.variants == [] {
        NetUnknown(c.log, c.next);
        TotalCons(Saved(p)[0], []);
      } else {
        FreshAccounts(Typed(ev.forms), c);
      }
    }
  }

  lemma {:induction false} FreshAccounts(forms: seq<Form>, c: Core)
    requires Numbered(c) && forall i :: 0 <= i < |forms| ==> forms[i].from.None?
    ensures Distinct(KeepAll(forms, [], c.next))
    ensures Accounted(KeepAll(forms, [], c.next), c.opening + Openings(forms, [], c.next), c.log)
  {
    var vs := KeepAll(forms, [], c.next);
    KeepAllDistinctIff(forms, [], c.next);
    OpeningsRange(forms, [], c.next);
    forall i | 0 <= i < |vs|
      ensures vs[i].line in Openings(forms, [], c.next) && Level(vs[i]) == Openings(forms, [], c.next)[vs[i].line] >= 0
      ensures Net(c.log, vs[i].line) == 0
    {
      KeepAllAt(forms, [], c.next, i);
      OpeningsAt(forms, [], c.next, i);
      NetUnknown(c.log, c.next + i);
    }
  }

  /** What an account holds now. */
  function Holding(c: Core, line: nat): int
    requires line in c.opening
  {
    c.opening[line] + Net(c.log, line)
  }

  /** Stock copied into an edit belongs to an account of the store. */
  ghost predicate Copied(c: Core, edit: Edit) {
    edit.forms.Some? ==> forall i :: 0 <= i < |edit.forms.value| && edit.forms.value[i].from.Some? ==>
      edit.forms.value[i].from.value in c.opening && edit.forms.value[i].stock >= 0
  }

  /** A product read some time ago, from a store whose accounts were right. */
  ghost predicate Known(c: Core, seen: Product) {
    && Distinct(Saved(seen))
    && seen.stock >= 0
    && (forall i :: 0 <= i < |Saved(seen)| ==> Saved(seen)[i].line in c.opening && Level(Saved(seen)[i]) >= 0)
  }

  ghost predicate Readable(c: Core, forms: seq<Form>, saved: seq<Variant>) {
    forall i :: 0 <= i < |forms| && Account(forms[i], saved).Some? ==>
      Account(forms[i], saved).value in c.opening && Kept(forms[i], saved) >= 0
  }

  /** The stock the edit copies into a form, now or at an earlier try, is what its account holds now. */
  ghost predicate StillHeld(c: Core, form: Form, saved: seq<Variant>)
    requires Account(form, saved).Some? ==> Account(form, saved).value in c.opening
  {
    Account(form, saved).Some? ==> Kept(form, saved) == Holding(c, Account(form, saved).value)
  }

  lemma ReadableForms(c: Core, edit: Edit, seen: Product)
    requires Known(c, seen) && Copied(c, edit) && edit.forms.Some?
    ensures Readable(c, edit.forms.value, Saved(seen))
  {
    var forms, saved := edit.forms.value, Saved(seen);
    forall i | 0 <= i < |forms| && Account(forms[i], saved).Some?
      ensures Account(forms[i], saved).value in c.opening && Kept(forms[i], saved) >= 0
    {
      var k := Find(forms[i], saved);
      if k < |saved| { assert saved[k].line in c.opening; }
    }
  }

  /** No account is continued twice, and no stock the edit writes has changed since it was copied. */
  ghost predicate LandsClean(c: Core, w: Work)
    requires w.Writing? && c.doc.Some? && Known(c, w.seen) && Copied(c, w.edit)
  {
    match w.edit.forms
    case None => w.seen.stock == c.doc.value.stock
    case Some(forms) =>
      ReadableForms(c, w.edit, w.seen);
      if forms == [] then w.seen.stock == c.doc.value.stock
      else
        && Apart(forms, Saved(w.seen))
        && forall i :: 0 <= i < |forms| ==> StillHeld(c, forms[i], Saved(w.seen))
  }

  lemma KeptOld(forms: seq<Form>, c: Core, saved: seq<Variant>, i: nat)
    requires Numbered(c) && Readable(c, forms, saved) && i < |forms| && Account(forms[i], saved).Some?
    ensures var v := KeepAll(forms, saved, c.next)[i];
      && v.line in c.opening && v.line !in Openings(forms, saved, c.next) && Level(v) >= 0
      && (Level(v) == Holding(c, v.line) <==> StillHeld(c, forms[i], saved))
  {
    OpeningsRange(forms, saved, c.next);
    KeepAllAt(forms, saved, c.next, i);
    hide Openings, KeepAll, Net, Find;
  }

  lemma KeptNew(forms: seq<Form>, c: Core, saved: seq<Variant>, i: nat)
    requires Numbered(c) && i < |forms| && Account(forms[i], saved).None?
    ensures var v := KeepAll(forms, saved, c.next)[i];
      && v.line in Openings(forms, saved, c.next) && Level(v) >= 0
      && Level(v) == Openings(forms, saved, c.next)[v.line] && Net(c.log, v.line) == 0
  {
    KeepAllAt(forms, saved, c.next, i);
    OpeningsAt(forms, saved, c.next, i);
    NetUnknown(c.log, c.next + i);
    hide Openings, KeepAll, Net, Find;
  }

  lemma KeptAt(forms: seq<Form>, c: Core, saved: seq<Variant>, i: nat)
    requires Numbered(c) && Readable(c, forms, saved) && i < |forms|
    ensures var v := KeepAll(forms, saved, c.next)[i];
            var more := c.opening + Openings(forms, saved, c.next);
      && v.line in more && Level(v) >= 0
      && (Level(v) == more[v.line] + Net(c.log, v.line) <==> StillHeld(c, forms[i], saved))
  {
    if Account(forms[i], saved).Some? { KeptOld(forms, c, saved, i); } else { KeptNew(forms, c, saved, i); }
    hide Openings, KeepAll, Net, Account, Level;
  }

  lemma KeepAllAccounted(forms: seq<Form>, c: Core, saved: seq<Variant>)
    requires Numbered(c) && Readable(c, forms, saved)
    requires forall i :: 0 <= i < |forms| ==> StillHeld(c, forms[i], saved)
    ensures Accounted(KeepAll(forms, saved, c.next), c.opening + Openings(forms, saved, c.next), c.log)
  {
    var vs, more := KeepAll(forms, saved, c.next), c.opening + Openings(forms, saved, c.next);
    forall i | 0 <= i < |vs| ensures vs[i].line in more && Level(vs[i]) == more[vs[i].line] + Net(c.log, vs[i].line) >= 0 {
      KeptAt(forms, c, saved, i);
      hide KeepAll, StillHeld, Openings, Net, Level;
    }
  }

  lemma {:induction false} AccountedIsHeld(forms: seq<Form>, c: Core, saved: seq<Variant>, i: nat)
    requires Numbered(c) && Readable(c, forms, saved) && i < |forms|
    requires Accounted(KeepAll(forms, saved, c.next), c.opening + Openings(forms, saved, c.next), c.log)
    ensures StillHeld(c, forms[i], saved)
  {
    KeptAt(forms, c, saved, i);
  }

  lemma {:induction false} KeepAllAccountedIff(forms: seq<Form>, c: Core, saved: seq<Variant>)
    requires Numbered(c) && Readable(c, forms, saved)
    ensures Accounted(KeepAll(forms, saved, c.next), c.opening + Openings(forms, saved, c.next), c.log)
       <==> forall i :: 0 <= i < |forms| ==> StillHeld(c, forms[i], saved)
  {
    if forall i :: 0 <= i < |forms| ==> StillHeld(c, forms[i], saved) { KeepAllAccounted(forms, c, saved); }
    hide StillHeld;
    if Accounted(KeepAll(forms, saved, c.next), c.opening + Openings(forms, saved, c.next), c.log) {
      forall i | 0 <= i < |forms| ensures StillHeld(c, forms[i], saved) { AccountedIsHeld(forms, c, saved, i); }
    }
  }

  /** One account, of a product without variants. */
  lemma PlainBalanced(c: Core)
    requires Numbered(c) && c.doc.Some? && c.doc.value.variants == [] && c.doc.value.line in c.opening
    ensures Balanced(c) <==> c.doc.value.stock == Holding(c, c.doc.value.line) && c.doc.value.stock >= 0
  {
    TotalCons(Saved(c.doc.value)[0], []);
    assert Saved(c.doc.value) == [Saved(c.doc.value)[0]];
    if Balanced(c) { assert Level(Saved(c.doc.value)[0]) == Holding(c, c.doc.value.line); }
  }

  lemma PlainLine(c: Core)
    requires Balanced(c) && c.doc.Some? && c.doc.value.variants == []
    ensures c.doc.value.line in c.opening
  {
    assert Saved(c.doc.value)[0].line in c.opening;
  }

  /** An edit that names no variants, on a product that has none or loses them. */
  lemma PlainLandIff(c: Core, w: Work, at: nat)
    requires Balanced(c) && w.Writing? && c.doc.Some? && Known(c, w.seen)
    requires w.edit.forms == None || w.edit.forms == Some([])
    ensures Balanced(Land(c, w, at)) <==> w.seen.stock == c.doc.value.stock
  {
    var d := Land(c, w, at);
    if c.doc.value.variants == [] {
      assert d.log == c.log;
      PlainLine(c);
      PlainBalanced(c);
      PlainBalanced(d);
    } else if w.edit.forms.Some? {
      assert forall i :: 0 <= i < |Saved(c.doc.value)| ==> c.doc.value.variants[i].line < c.next;
      NetUnknown(d.log, c.next);
      PlainBalanced(d);
    }
  }

  /** A landing edit, however old what it has copied, keeps the accounts exactly when it lands clean. */
  lemma LandCleanIff(c: Core, w: Work, at: nat)
    requires Balanced(c) && w.Writing? && c.doc.Some? && Known(c, w.seen) && Copied(c, w.edit)
    ensures Balanced(Land(c, w, at)) <==> LandsClean(c, w)
  {
    if w.edit.forms.None? || w.edit.forms == Some([]) {
      PlainLandIff(c, w, at);
    } else {
      var forms := w.edit.forms.value;
      ReadableForms(c, w.edit, w.seen);
      KeepAllAccountedIff(forms, c, Saved(w.seen));
      KeepAllDistinctIff(forms, Saved(w.seen), c.next);
      OpeningsRange(forms, Saved(w.seen), c.next);
      hide StillHeld, Apart, Openings, Net;
    }
  }

  /** The form carries stock copied at an earlier try of a variant that is gone. */
  predicate PutsBack(form: Form, saved: seq<Variant>) {
    Find(form, saved) == |saved| && form.from.Some?
  }

  /** On the product it read: no account is continued twice, and stock left over from an earlier try is still held. */
  ghost predicate Continues(c: Core, edit: Edit, seen: Product)
    requires Copied(c, edit)
  {
    edit.forms.Some? && edit.forms.value != [] ==>
      && Apart(edit.forms.value, Saved(seen))
      && forall i :: 0 <= i < |edit.forms.value| && PutsBack(edit.forms.value[i], Saved(seen)) ==>
           edit.forms.value[i].stock == Holding(c, edit.forms.value[i].from.value)
  }

  /** What an edit copies from the product it lands on is held: only stock copied at an earlier try can be stale. */
  lemma LandKeepsIff(c: Core, w: Work, at: nat)
    requires Balanced(c) && w.Writing? && c.doc == Some(w.seen) && Copied(c, w.edit)
    ensures Known(c, w.seen)
    ensures Balanced(Land(c, w, at)) <==> Continues(c, w.edit, w.seen)
  {
    BalancedIsKnown(c);
    LandCleanIff(c, w, at);
    if w.edit.forms.Some? {
      var forms, saved := w.edit.forms.value, Saved(w.seen);
      ReadableForms(c, w.edit, w.seen);
      forall i | 0 <= i < |forms|
        ensures StillHeld(c, forms[i], saved) <==>
          (PutsBack(forms[i], saved) ==> forms[i].stock == Holding(c, forms[i].from.value))
      {
        var k := Find(forms[i], saved);
        if k < |saved| { assert Level(saved[k]) == Holding(c, saved[k].line); }
      }
      hide StillHeld, Apart, Holding;
    }
  }

  lemma BalancedIsKnown(c: Core)
    requires Balanced(c) && c.doc.Some?
    ensures Known(c, c.doc.value)
  {
  }

  /** Stock copied under an earlier log is still held exactly when the account has not moved on balance since. */
  lemma StillHeldIff(c: Core, form: Form, saved: seq<Variant>, n: nat)
    requires n <= |c.log| && Account(form, saved).Some? && Account(form, saved).value in c.opening
    requires Kept(form, saved) == c.opening[Account(form, saved).value] + Net(c.log[..n], Account(form, saved).value)
    ensures StillHeld(c, form, saved) <==>
      Net(c.log, Account(form, saved).value) == Net(c.log[..n], Account(form, saved).value)
  {
  }

  // ---------------------------------------------------------------------------
  // Runs
  // ---------------------------------------------------------------------------

  /** A stamp tells products apart: a stored product with the stamp an edit saw is the product it saw. Before the product exists nobody has seen it. */
  ghost predicate StampsTell(w: World) {
    && (!w.core.born ==> w.core.doc.None? && forall e :: e in w.edits ==> !w.edits[e].Writing?)
    && (forall e :: e in w.edits && w.edits[e].Writing? && w.core.doc.Some? ==>
          && w.edits[e].seen.stamp <= w.core.doc.value.stamp
          && (w.edits[e].seen.stamp == w.core.doc.value.stamp ==> w.edits[e].seen == w.core.doc.value))
  }

  /** Every write gives the product a later updatedAt than it had. */
  predicate Clocked(c: Core, ev: Event) {
    (ev.Write? || ev.Move? || ev.Track? || ev.Approve? || ev.Reject?) && c.doc.Some? ==> ev.at > c.doc.value.stamp
  }

  /** What edits in flight have read and copied came from a store whose accounts were right. */
  ghost predicate AllKnown(w: World) {
    && (!w.core.born ==> w.core.doc.None?)
    && forall e :: e in w.edits ==>
         && (w.edits[e].Writing? ==> Known(w.core, w.edits[e].seen))
         && (w.edits[e].Writing? || w.edits[e].Missed? ==> Copied(w.core, w.edits[e].edit))
  }

  /** When an edit lands, no account is continued twice, and a variant it puts back with stock copied earlier has not moved since. */
  ghost predicate ContinuesWhenLanding(w: World, ev: Event) {
    ev.Write? && ev.e in w.edits && Lands(w.core, w.edits[ev.e]) ==>
      Copied(w.core, w.edits[ev.e].edit) && Continues(w.core, w.edits[ev.e].edit, w.edits[ev.e].seen)
  }

  ghost predicate Fair(w: World, evs: seq<Event>)
    decreases |evs|
  {
    evs != [] ==>
      && Clocked(w.core, evs[0])
      && ContinuesWhenLanding(w, evs[0])
      && Fair(Apply(w, evs[0]), evs[1..])
  }

  lemma StampsStillTell(w: World, ev: Event)
    requires StampsTell(w) && Clocked(w.core, ev)
    ensures StampsTell(Apply(w, ev))
  {
  }

  lemma StepKeepsAccounts(w: World, ev: Event)
    requires StampsTell(w) && Balanced(w.core)
    requires Clocked(w.core, ev) && ContinuesWhenLanding(w, ev)
    ensures Balanced(Apply(w, ev).core)
  {
    match ev
    case New(_, _, _, _, _, _, _) => CreatedKeeps(w.core, ev);
    case Write(e, at) =>
      if e in w.edits && Lands(w.core, w.edits[e]) { LandKeepsIff(w.core, w.edits[e], at); }
    case Move(target, delta, at) => MovedKeeps(w.core, target, delta, at);
    case Track(id, at) => TrackedKeeps(w.core, id, at);
    case Approve(at) => SameStock(w.core, Apply(w, ev).core);
    case Reject(at) => SameStock(w.core, Apply(w, ev).core);
    case _ =>
  }

  lemma SameStock(c: Core, d: Core)
    requires Balanced(c) && d.opening == c.opening && d.log == c.log && d.next == c.next
    requires d.doc.Some? ==> c.doc.Some? && Saved(d.doc.value) == Saved(c.doc.value) && d.doc.value.stock == c.doc.value.stock
    ensures Balanced(d)
  {
  }

  /** A landing writes back no stock that has changed since it was read. */
  ghost predicate CleanLanding(w: World, ev: Event)
    requires AllKnown(w)
  {
    ev.Write? && ev.e in w.edits && Lands(w.core, w.edits[ev.e]) ==> LandsClean(w.core, w.edits[ev.e])
  }

  lemma KnownGrows(c: Core, d: Core, work: Work)
    requires forall l :: l in c.opening ==> l in d.opening
    ensures work.Writing? && Known(c, work.seen) ==> Known(d, work.seen)
    ensures (work.Writing? || work.Missed?) && Copied(c, work.edit) ==> Copied(d, work.edit)
  {
  }

  lemma KnownStays(w: World, ev: Event)
    requires Balanced(w.core) && AllKnown(w)
    ensures AllKnown(Apply(w, ev))
  {
    var u := Apply(w, ev);
    OpeningsGrow(w, ev);
    if w.core.doc.Some? { BalancedIsKnown(w.core); }
    if ev.Open? || (ev.Reread? && ev.e in w.edits) { WorkIsKnown(w, ev); }
    assert !u.core.born ==> u.core.doc.None?;
    forall e | e in u.edits
      ensures u.edits[e].Writing? ==> Known(u.core, u.edits[e].seen)
      ensures u.edits[e].Writing? || u.edits[e].Missed? ==> Copied(u.core, u.edits[e].edit)
    {
      KnownGrows(w.core, u.core, u.edits[e]);
      hide Known, Copied, Filled, Verdict, Arrived, Land, Moved, Tracked, Created;
    }
  }

  lemma WorkIsKnown(w: World, ev: Event)
    requires Balanced(w.core) && AllKnown(w) && (ev.Open? || (ev.Reread? && ev.e in w.edits))
    ensures var work := NextWork(w.core, w.edits, ev); work.Writing? || work.Missed? ==> Copied(w.core, work.edit)
  {
    var c := w.core;
    if c.doc.Some? {
      BalancedIsKnown(c);
      if ev.Open? {
        FilledIsCopied(c, Arrived(ev.edit));
      } else if w.edits[ev.e].Missed? {
        FilledIsCopied(c, w.edits[ev.e].edit);
      }
    }
    hide Filled, Known, Verdict, Arrived;
  }

  lemma FilledIsCopied(c: Core, edit: Edit)
    requires c.doc.Some? && Known(c, c.doc.value) && Copied(c, edit)
    ensures Copied(c, Filled(edit, c.doc.value))
  {
    if edit.forms.Some? {
      var forms, saved := edit.forms.value, Saved(c.doc.value);
      ReadableForms(c, edit, c.doc.value);
      forall i | 0 <= i < |forms| ensures Refill(forms, saved)[i] == Refilled(forms[i], saved) { RefillAt(forms, saved, i); }
    }
  }

  lemma {:induction false} RefillAt(forms: seq<Form>, saved: seq<Variant>, i: nat)
    requires i < |forms|
    ensures Refill(forms, saved)[i] == Refilled(forms[i], saved)
  {
    if i > 0 { RefillAt(forms[1..], saved, i - 1); }
  }

  lemma OpeningsGrow(w: World, ev: Event)
    requires Numbered(w.core)
    ensures forall l :: l in w.core.opening ==> l in Apply(w, ev).core.opening
  {
  }

  /** Whatever the clock does, a step keeps the accounts exactly when no edit lands unclean. */
  lemma StepBalancedIff(w: World, ev: Event)
    requires Balanced(w.core) && AllKnown(w)
    ensures Balanced(Apply(w, ev).core) <==> CleanLanding(w, ev)
  {
    match ev
    case New(_, _, _, _, _, _, _) => CreatedKeeps(w.core, ev);
    case Write(e, at) =>
      if e in w.edits && Lands(w.core, w.edits[e]) { LandCleanIff(w.core, w.edits[e], at); }
    case Move(target, delta, at) => MovedKeeps(w.core, target, delta, at);
    case Track(id, at) => TrackedKeeps(w.core, id, at);
    case Approve(at) => SameStock(w.core, Apply(w, ev).core);
    case Reject(at) => SameStock(w.core, Apply(w, ev).core);
    case _ =>
  }

  /**
   * No stock update is lost: in every interleaving of edits, sales, cancellations,
   * adjustments and moderation, each stored variant holds what its account was opened with
   * plus all its movements, and the product's stock is the sum of its variants.
   */
  lemma {:induction false} NoLostUpdate(w: World, evs: seq<Event>)
    requires StampsTell(w) && AllKnown(w) && Balanced(w.core) && Fair(w, evs)
    ensures StampsTell(Run(w, evs)) && Balanced(Run(w, evs).core)
    ensures var c := Run(w, evs).core;
      c.doc.Some? && c.doc.value.variants != [] ==>
        && c.doc.value.stock == Total(c.doc.value.variants)
        && forall v :: v in c.doc.value.variants ==>
             v.line in c.opening && Level(v) == c.opening[v.line] + Net(c.log, v.line) >= 0
    decreases |evs|
  {
    if evs != [] {
      StampsStillTell(w, evs[0]);
      StepKeepsAccounts(w, evs[0]);
      KnownStays(w, evs[0]);
      hide Apply, StampsTell, Balanced, AllKnown, Clocked, ContinuesWhenLanding;
      NoLostUpdate(Apply(w, evs[0]), evs[1..]);
    }
  }

  ghost predicate AllClean(w: World, evs: seq<Event>)
    decreases |evs|
  {
    evs != [] ==> AllKnown(w) && CleanLanding(w, evs[0]) && AllClean(Apply(w, evs[0]), evs[1..])
  }

  ghost predicate BalancedThroughout(w: World, evs: seq<Event>)
    decreases |evs|
  {
    Balanced(w.core) && (evs != [] ==> BalancedThroughout(Apply(w, evs[0]), evs[1..]))
  }

  /** In every run, with any clock and any edits, no stock update is lost exactly when every edit lands clean. */
  lemma {:induction false} NoLostUpdateIff(w: World, evs: seq<Event>)
    requires Balanced(w.core) && AllKnown(w)
    ensures BalancedThroughout(w, evs) <==> AllClean(w, evs)
    decreases |evs|
  {
    hide Apply, Balanced, CleanLanding, AllKnown;
    if evs != [] {
      StepBalancedIff(w, evs[0]);
      KnownStays(w, evs[0]);
      if Balanced(Apply(w, evs[0]).core) { NoLostUpdateIff(Apply(w, evs[0]), evs[1..]); }
    }
  }

  /** No edit at its first try carries stock of a variant that is gone. */
  ghost predicate FirstTriesFresh(w: World) {
    forall e :: e in w.edits && w.edits[e].Writing? && w.edits[e].attempt == 0 && w.edits[e].edit.forms.Some? ==>
      NothingBack(w.edits[e].edit.forms.value, Saved(w.edits[e].seen))
  }

  predicate NothingBack(forms: seq<Form>, saved: seq<Variant>) {
    forall i :: 0 <= i < |forms| ==> !PutsBack(forms[i], saved)
  }

  lemma {:induction false} SameMatch(form: Form, other: Form, saved: seq<Variant>)
    requires form.id == other.id && form.sku == other.sku
    ensures Find(form, saved) == Find(other, saved)
  {
    if saved != [] { SameMatch(form, other, saved[1..]); }
  }

  lemma TypedPutsNothingBack(forms: seq<Form>, saved: seq<Variant>)
    ensures NothingBack(Refill(Typed(forms), saved), saved)
  {
    var fs := Typed(forms);
    forall i | 0 <= i < |fs| ensures !PutsBack(Refill(fs, saved)[i], saved) {
      RefillAt(fs, saved, i);
      SameMatch(fs[i], Refill(fs, saved)[i], saved);
    }
  }

  /** So only a retry can put such stock back. */
  lemma FirstTriesStayFresh(w: World, ev: Event)
    requires FirstTriesFresh(w)
    ensures FirstTriesFresh(Apply(w, ev))
  {
    if ev.Open? && ev.edit.forms.Some? && w.core.doc.Some? {
      TypedPutsNothingBack(ev.edit.forms.value, Saved(w.core.doc.value));
    }
    hide NothingBack, Refill, Typed, Saved, Land, Moved, Tracked, Created;
  }

  // ---------------------------------------------------------------------------
  // Without the hypotheses
  // ---------------------------------------------------------------------------

  /** A stored product with one variant, five in stock, last written at 10. */
  function Five(status: Status): World {
    World(Core(Some(Product("A", 0, 5, [Variant(Some(7), "A", Some(5), 0)], status, true, 10)),
               map[0 := 5], [], 1, status.Approved?, true), map[])
  }

  lemma FindIn(form: Form, v: Variant)
    ensures Find(form, [v]) == if Matches(form, v) then 0 else 1
  {
  }

  lemma FiveIsSound(status: Status)
    ensures StampsTell(Five(status)) && Balanced(Five(status).core) && AllKnown(Five(status))
  {
  }

  lemma OneForm(form: Form, v: Variant, next: nat)
    ensures Refill([form], [v]) == [Refilled(form, [v])]
    ensures KeepAll([form], [v], next) == [Keep(form, [v], next)]
    ensures Matches(form, v) ==> Openings([form], [v], next) == map[]
  {
  }

  const REMOVE := Edit(Some([Form(None, "B", 0, None)]), None, None, true)
  const KEEP := Edit(Some([Form(Some(7), "A", 0, None)]), None, None, true)
  const KEPT := Edit(Some([Form(Some(7), "A", 5, Some(0))]), None, None, true)

  function Sold(): Variant {
    Variant(Some(7), "A", Some(3), 0)
  }

  function AfterSale(at: nat): Product {
    Product("A", 0, 3, [Sold()], Pending, true, at)
  }

  /** The first edit has read five in stock. */
  function FirstWork(): Work {
    Writing(KEPT, Pending, Five(Pending).core.doc.value, 0)
  }

  lemma FirstReads()
    ensures Apply(Five(Pending), Open(1, KEEP)) == World(Five(Pending).core, map[1 := FirstWork()])
  {
    var form, v := Form(Some(7), "A", 0, None), Variant(Some(7), "A", Some(5), 0);
    OneForm(form, v, 1);
    FindIn(form, v);
    assert Typed([form]) == [form];
  }

  lemma TwoSold(at: nat)
    ensures Moved(Five(Pending).core, ById(7), -2, at) == Core(Some(AfterSale(at)), map[0 := 5], [(0, -2)], 1, false, true)
  {
    var vs := [Variant(Some(7), "A", Some(5), 0)];
    assert FirstTaking(vs, ById(7), -2) == 0;
    assert vs[0 := Sold()] == [Sold()] && [] + [(0 as nat, -2)] == [(0, -2)];
  }

  /** A sale in the same millisecond as the write an edit has read is overwritten: five stay in stock after selling two. */
  lemma SameInstantLosesSale()
    ensures var w := Run(Five(Pending), [Open(1, KEEP), Move(ById(7), -2, 10), Write(1, 11)]);
      && StampsTell(Five(Pending)) && Balanced(Five(Pending).core) && AllKnown(Five(Pending))
      && 1 in w.edits && w.edits[1].Landed?
      && w.core.doc.Some? && w.core.doc.value.stock == 5
      && w.core.log == [(0, -2)]
      && !Balanced(w.core)
  {
    hide Run;
    FiveIsSound(Pending);
    FirstReads();
    TwoSold(10);
    RunThree(Five(Pending), Open(1, KEEP), Move(ById(7), -2, 10), Write(1, 11));
    var c := Core(Some(AfterSale(10)), map[0 := 5], [(0, -2)], 1, false, true);
    assert Lands(c, FirstWork());
    StaleLands(c);
    hide Moved, Land, Five, NextWork, AfterSale;
  }

  lemma StaleLands(c: Core)
    requires c == Core(Some(AfterSale(10)), map[0 := 5], [(0, -2)], 1, false, true)
    ensures var d := Land(c, FirstWork(), 11);
      && d.doc.Some? && d.doc.value.stock == 5 && d.log == [(0, -2)] && !Balanced(d)
  {
    var form, v := Form(Some(7), "A", 5, Some(0)), Variant(Some(7), "A", Some(5), 0);
    OneForm(form, v, 1);
    FindIn(form, v);
    TotalCons(v, []);
    NetMore([], 0, -2, 0);
    assert [] + [(0 as nat, -2)] == [(0, -2)];
  }

  /** The product with another variant in place of the one sold. */
  function Replaced(): Product {
    Product("A", 0, 0, [Variant(Some(1), "B", Some(0), 1)], Pending, true, 12)
  }

  lemma SecondReads(core: Core)
    requires core.doc == Some(AfterSale(11))
    ensures Apply(World(core, map[1 := FirstWork()]), Open(2, REMOVE))
         == World(core, map[1 := FirstWork(), 2 := Writing(REMOVE, Pending, AfterSale(11), 0)])
  {
    var form := Form(None, "B", 0, None);
    OneForm(form, Sold(), 1);
    FindIn(form, Sold());
    assert Typed([form]) == [form];
  }

  /** An edit reads five in stock, two are sold, and another edit is read that replaces the variant. */
  lemma SoldMeanwhile() returns (w: World)
    ensures w == Run(Five(Pending), [Open(1, KEEP), Move(ById(7), -2, 11), Open(2, REMOVE)])
    ensures w == World(Core(Some(AfterSale(11)), map[0 := 5], [(0, -2)], 1, false, true),
                       map[1 := FirstWork(), 2 := Writing(REMOVE, Pending, AfterSale(11), 0)])
  {
    hide Run;
    FirstReads();
    TwoSold(11);
    SecondReads(Core(Some(AfterSale(11)), map[0 := 5], [(0, -2)], 1, false, true));
    RunThree(Five(Pending), Open(1, KEEP), Move(ById(7), -2, 11), Open(2, REMOVE));
    hide Moved, Five, FirstWork, AfterSale, NextWork;
    w := Run(Five(Pending), [Open(1, KEEP), Move(ById(7), -2, 11), Open(2, REMOVE)]);
  }

  lemma VariantRemoved() returns (w: World)
    ensures w == Run(Five(Pending), [Open(1, KEEP), Move(ById(7), -2, 11), Open(2, REMOVE)] + [Write(2, 12)])
    ensures w.core == Core(Some(Replaced()), map[0 := 5, 1 := 0], [(0, -2)], 3, false, true)
    ensures 1 in w.edits && w.edits[1] == FirstWork()
  {
    var w3 := SoldMeanwhile();
    hide Run;
    RunConcat(Five(Pending), [Open(1, KEEP), Move(ById(7), -2, 11), Open(2, REMOVE)], [Write(2, 12)]);
    RunOne(w3, Write(2, 12));
    var other := Form(None, "B", 0, None);
    FindIn(other, Sold());
    OneForm(other, Sold(), 1);
    TotalCons(Variant(Some(1), "B", Some(0), 1), []);
    w := Apply(w3, Write(2, 12));
    assert Openings([other], [Sold()], 1) == map[1 := 0];
  }

  /**
   * The retry puts the variant back with the stock copied at the first try: five in stock
   * after selling two, under the same id, with every stamp later than the one before and no
   * account continued twice.
   */
  lemma RetryPutsBackSoldStock()
    ensures var w := Run(Five(Pending),
                         [Open(1, KEEP), Move(ById(7), -2, 11), Open(2, REMOVE)] + [Write(2, 12)]
                         + [Write(1, 13), Reread(1), Write(1, 14)]);
      && 1 in w.edits && w.edits[1].Landed?
      && w.core.doc.Some? && w.core.doc.value.variants == [Variant(Some(7), "A", Some(5), 0)]
      && w.core.opening == map[0 := 5, 1 := 0] && w.core.log == [(0, -2)]
      && !Balanced(w.core)
  {
    var early := [Open(1, KEEP), Move(ById(7), -2, 11), Open(2, REMOVE)] + [Write(2, 12)];
    var w4 := VariantRemoved();
    hide Run;
    RunConcat(Five(Pending), early, [Write(1, 13), Reread(1), Write(1, 14)]);
    RunThree(w4, Write(1, 13), Reread(1), Write(1, 14));
    var w5, w6 := Apply(w4, Write(1, 13)), Apply(Apply(w4, Write(1, 13)), Reread(1));
    assert w5.edits[1] == Missed(KEPT, Pending, 0) && w5.core == w4.core;
    SecondTry();
    assert w6.edits[1] == Writing(KEPT, Pending, Replaced(), 1) && w6.core == w4.core;
    SecondLands(w4.core);
    hide Land, Filled, Five, Replaced;
  }

  lemma SecondTry()
    ensures Filled(KEPT, Replaced()) == KEPT
  {
    var form, b := Form(Some(7), "A", 5, Some(0)), Variant(Some(1), "B", Some(0), 1);
    OneForm(form, b, 3);
    FindIn(form, b);
  }

  lemma SecondLands(c: Core)
    requires c == Core(Some(Replaced()), map[0 := 5, 1 := 0], [(0, -2)], 3, false, true)
    ensures var d := Land(c, Writing(KEPT, Pending, Replaced(), 1), 14);
      && d.doc.Some? && d.doc.value.variants == [Variant(Some(7), "A", Some(5), 0)]
      && d.opening == map[0 := 5, 1 := 0] && d.log == [(0, -2)] && !Balanced(d)
  {
    var form, b := Form(Some(7), "A", 5, Some(0)), Variant(Some(1), "B", Some(0), 1);
    OneForm(form, b, 3);
    FindIn(form, b);
    assert Openings([form], [b], 3) == map[];
    NetMore([], 0, -2, 0);
    assert [] + [(0 as nat, -2)] == [(0, -2)];
  }

  /** One saved variant matched twice, by its id and by its SKU, is stored twice with the full stock. */
  lemma MatchingTwiceInventsStock()
    ensures var forms := [Form(Some(7), "B", 0, None), Form(None, "A", 0, None)];
      && SkusDistinct(forms)
      && !Apart(forms, Five(Pending).core.doc.value.variants)
      && Total(KeepAll(forms, Five(Pending).core.doc.value.variants, 1)) == 10
  {
    var v := Variant(Some(7), "A", Some(5), 0);
    var forms := [Form(Some(7), "B", 0, None), Form(None, "A", 0, None)];
    FindIn(forms[0], v);
    FindIn(forms[1], v);
    assert Find(forms[0], [v]) == Find(forms[1], [v]);
    assert forms[1..] == [forms[1]];
    OneForm(forms[1], v, 2);
    TotalCons(Keep(forms[1], [v], 2), []);
    TotalCons(Keep(forms[0], [v], 1), [Keep(forms[1], [v], 2)]);
  }
}
