/**
 * Submissions when no database session can be opened (productRatingController.js): the
 * rating is saved, then the product's totals are read, then they are written back, and other
 * submissions may run in between.
 */
module RatingsWithoutSession {
  import opened Ratings

  datatype Stage = Saved | Fetched(read: Totals) | Written

  /** A submission and the rating it stored. */
  datatype Work = Work(rating: Rating, stage: Stage)

  /** The product page: its submissions and its rating totals. */
  datatype Page = Page(works: seq<Work>, totals: Totals)

  datatype Event = Save(key: nat, stars: Stars) | Fetch(e: nat) | Write(e: nat)

  predicate KeyUsed(works: seq<Work>, key: nat) {
    exists i :: 0 <= i < |works| && works[i].rating.key == key
  }

  predicate WellShaped(w: Page) {
    Shaped(w.totals) && forall i :: 0 <= i < |w.works| && w.works[i].stage.Fetched? ==> Shaped(w.works[i].stage.read)
  }

  function Apply(w: Page, ev: Event): (after: Page)
    requires WellShaped(w)
    ensures WellShaped(after)
  {
    match ev
    case Save(key, stars) =>
      if KeyUsed(w.works, key) then w else w.(works := w.works + [Work(Rating(key, stars, Active), Saved)])
    case Fetch(e) =>
      if e < |w.works| && w.works[e].stage.Saved? then w.(works := w.works[e := w.works[e].(stage := Fetched(w.totals))]) else w
    case Write(e) =>
      if e < |w.works| && w.works[e].stage.Fetched?
      then Page(w.works[e := w.works[e].(stage := Written)], Bump(w.works[e].stage.read, w.works[e].rating.stars, 1))
      else w
  }

  function Run(w: Page, evs: seq<Event>): (after: Page)
    requires WellShaped(w)
    ensures WellShaped(after)
    decreases |evs|
  {
    if evs == [] then w else Run(Apply(w, evs[0]), evs[1..])
  }

  // ---------------------------------------------------------------------------
  // What the totals should be
  // ---------------------------------------------------------------------------

  function Stored(works: seq<Work>): (rs: seq<Rating>)
    ensures |rs| == |works| && forall i :: 0 <= i < |rs| ==> rs[i] == works[i].rating
  {
    seq(|works|, i requires 0 <= i < |works| => works[i].rating)
  }

  /** The stored ratings, with those hidden whose submission has not written the totals yet. */
  function Counted(works: seq<Work>): (rs: seq<Rating>)
    ensures |rs| == |works|
    ensures forall i :: 0 <= i < |rs| ==> rs[i] == if works[i].stage.Written? then works[i].rating else works[i].rating.(status := Hidden)
  {
    seq(|works|, i requires 0 <= i < |works| => if works[i].stage.Written? then works[i].rating else works[i].rating.(status := Hidden))
  }

  predicate NonNegative(t: Totals) {
    Shaped(t) && t.sum >= 0 && t.count >= 0 && forall s :: 0 <= s < 5 ==> t.dist[s] >= 0
  }

  predicate SameCounts(t: Totals, u: Totals) {
    t.sum == u.sum && t.count == u.count && t.dist == u.dist
  }

  /** The totals are those of the ratings counted so far. */
  ghost predicate InStep(w: Page) {
    && w.totals == Rebuilt(Counted(w.works))
    && (forall i :: 0 <= i < |w.works| ==> w.works[i].rating.status.Active?)
    && (forall i :: 0 <= i < |w.works| && w.works[i].stage.Fetched? ==> NonNegative(w.works[i].stage.read))
  }

  /** A write puts back totals that nobody has changed since they were read. */
  predicate ReadStands(w: Page, ev: Event) {
    ev.Write? && ev.e < |w.works| && w.works[ev.e].stage.Fetched? ==> SameCounts(w.works[ev.e].stage.read, w.totals)
  }

  lemma {:induction false} HiddenAppends(rs: seq<Rating>, r: Rating, s: nat)
    requires !r.status.Active?
    ensures Sum(rs + [r]) == Sum(rs) && Count(rs + [r]) == Count(rs) && Rated(rs + [r], s) == Rated(rs, s)
  {
    if rs == [] {
      assert [] + [r] == [r] && [r][1..] == [];
    } else {
      HiddenAppends(rs[1..], r, s);
      assert (rs + [r])[1..] == rs[1..] + [r];
    }
  }

  lemma BumpTells(t: Totals, u: Totals, s: Stars)
    requires NonNegative(t) && NonNegative(u)
    ensures Bump(t, s, 1) == Bump(u, s, 1) <==> SameCounts(t, u)
  {
    var a, b := Bump(t, s, 1), Bump(u, s, 1);
    if a == b {
      forall i | 0 <= i < 5 ensures t.dist[i] == u.dist[i] { assert a.dist[i] == b.dist[i]; }
    }
  }

  lemma RebuiltNonNegative(rs: seq<Rating>)
    ensures NonNegative(Rebuilt(rs))
  {
  }

  lemma WriteInStepIff(w: Page, e: nat)
    requires WellShaped(w) && InStep(w) && e < |w.works| && w.works[e].stage.Fetched?
    ensures InStep(Apply(w, Write(e))) <==> ReadStands(w, Write(e))
  {
    var after := Apply(w, Write(e));
    var counted := Counted(w.works);
    assert Counted(after.works) == counted[e := counted[e].(status := Active)];
    ChangeBumps(counted, e, Active);
    RebuiltNonNegative(counted);
    BumpTells(w.works[e].stage.read, w.totals, w.works[e].rating.stars);
  }

  /** A step keeps the totals in step with the ratings exactly when a write finds the totals as it read them. */
  lemma InStepIff(w: Page, ev: Event)
    requires WellShaped(w) && InStep(w)
    ensures InStep(Apply(w, ev)) <==> ReadStands(w, ev)
  {
    match ev
    case Save(key, stars) =>
      if !KeyUsed(w.works, key) {
        var r := Rating(key, stars, Active);
        assert Counted(Apply(w, ev).works) == Counted(w.works) + [r.(status := Hidden)];
        forall s: nat ensures Rated(Counted(w.works) + [r.(status := Hidden)], s) == Rated(Counted(w.works), s) {
          HiddenAppends(Counted(w.works), r.(status := Hidden), s);
        }
        HiddenAppends(Counted(w.works), r.(status := Hidden), 1);
      }
    case Fetch(e) =>
      assert Counted(Apply(w, ev).works) == Counted(w.works);
      RebuiltNonNegative(Counted(w.works));
    case Write(e) =>
      if e < |w.works| && w.works[e].stage.Fetched? { WriteInStepIff(w, e); }
  }

  predicate AllReadsStand(w: Page, evs: seq<Event>)
    requires WellShaped(w)
    decreases |evs|
  {
    evs != [] ==> ReadStands(w, evs[0]) && AllReadsStand(Apply(w, evs[0]), evs[1..])
  }

  ghost predicate InStepThroughout(w: Page, evs: seq<Event>)
    requires WellShaped(w)
    decreases |evs|
  {
    InStep(w) && (evs != [] ==> InStepThroughout(Apply(w, evs[0]), evs[1..]))
  }

  /** A run stays in step exactly when every write finds the totals as it read them. */
  lemma {:induction false} InStepRunIff(w: Page, evs: seq<Event>)
    requires WellShaped(w) && InStep(w)
    ensures InStepThroughout(w, evs) <==> AllReadsStand(w, evs)
    ensures AllReadsStand(w, evs) ==> InStep(Run(w, evs))
    decreases |evs|
  {
    hide Apply, InStep, ReadStands;
    if evs != [] {
      InStepIff(w, evs[0]);
      if InStep(Apply(w, evs[0])) { InStepRunIff(Apply(w, evs[0]), evs[1..]); }
    }
  }

  /** Then, with no submission half done, the totals are the rebuild of the stored ratings. */
  lemma TotalsAreRebuilt(evs: seq<Event>)
    requires AllReadsStand(Page([], Rebuilt([])), evs)
    ensures var w := Run(Page([], Rebuilt([])), evs);
      (forall i :: 0 <= i < |w.works| ==> w.works[i].stage.Written?) ==> w.totals == Rebuilt(Stored(w.works))
  {
    var start := Page([], Rebuilt([]));
    assert Counted(start.works) == [];
    InStepRunIff(start, evs);
    var w := Run(start, evs);
    if forall i :: 0 <= i < |w.works| ==> w.works[i].stage.Written? { assert Counted(w.works) == Stored(w.works); }
  }

  // ---------------------------------------------------------------------------
  // The lost submission
  // ---------------------------------------------------------------------------

  lemma {:induction false} RunConcat(w: Page, a: seq<Event>, b: seq<Event>)
    requires WellShaped(w)
    ensures Run(w, a + b) == Run(Run(w, a), b)
    decreases |a|
  {
    hide Apply;
    if a == [] {
      assert a + b == b;
    } else {
      RunConcat(Apply(w, a[0]), a[1..], b);
      assert (a + b)[1..] == a[1..] + b;
    }
  }

  lemma RunTwo(w: Page, a: Event, b: Event)
    requires WellShaped(w)
    ensures Run(w, [a, b]) == Apply(Apply(w, a), b)
  {
    hide Apply;
    assert [a, b][1..] == [b] && [b][1..] == [];
    assert Run(Apply(w, a), [b]) == Run(Apply(Apply(w, a), b), []);
  }

  lemma CountTwo(a: Rating, b: Rating)
    requires a.status.Active? && b.status.Active?
    ensures Count([a, b]) == 2
  {
    assert [a, b][1..] == [b] && [b][1..] == [];
    assert Count([b]) == 1 + Count([]);
  }

  /** Two submissions that both read before either wrote: both ratings are stored, one is counted. */
  lemma SecondWriteLosesFirst(s: Stars, t: Stars)
    ensures var evs := [Save(1, s), Save(2, t)] + [Fetch(0), Fetch(1)] + [Write(0), Write(1)];
            var w := Run(Page([], Rebuilt([])), evs);
      && w.works == [Work(Rating(1, s, Active), Written), Work(Rating(2, t, Active), Written)]
      && w.totals.count == 1 && w.totals.sum == t
      && !AllReadsStand(Page([], Rebuilt([])), evs)
  {
    var none := Rebuilt([]);
    var start := Page([], none);
    var a, b := Rating(1, s, Active), Rating(2, t, Active);
    var w2 := Page([Work(a, Saved), Work(b, Saved)], none);
    var w4 := Page([Work(a, Fetched(none)), Work(b, Fetched(none))], none);
    var w6 := Page([Work(a, Written), Work(b, Written)], Bump(none, t, 1));
    RunTwo(start, Save(1, s), Save(2, t));
    assert Apply(Apply(start, Save(1, s)), Save(2, t)) == w2;
    RunTwo(w2, Fetch(0), Fetch(1));
    assert Apply(Apply(w2, Fetch(0)), Fetch(1)) == w4;
    RunTwo(w4, Write(0), Write(1));
    assert Apply(Apply(w4, Write(0)), Write(1)) == w6;
    hide Apply;
    RunConcat(start, [Save(1, s), Save(2, t)], [Fetch(0), Fetch(1)]);
    RunConcat(start, [Save(1, s), Save(2, t)] + [Fetch(0), Fetch(1)], [Write(0), Write(1)]);
    var evs := [Save(1, s), Save(2, t)] + [Fetch(0), Fetch(1)] + [Write(0), Write(1)];
    assert Stored(w6.works) == [a, b];
    CountTwo(a, b);
    if AllReadsStand(start, evs) { TotalsAreRebuilt(evs); }
  }
}
