/**
 * The rating totals kept on a product (productRatingController.js): the incremental update
 * on submission and moderation, and the full rebuild from the ACTIVE ratings. Averages are
 * in hundredths, rounded half up.
 */
module Ratings {
  import opened Wrappers

  datatype Status = Active | Flagged | Hidden | Removed

  type Stars = s: nat | 1 <= s <= 5 witness 1

  /** One rating; `key` is the ordered item and the customer, unique in the collection. */
  datatype Rating = Rating(key: nat, stars: Stars, status: Status)

  /** dist[s - 1] counts the ratings of s stars. */
  datatype Totals = Totals(sum: int, count: int, dist: seq<int>, average: int)

  predicate Shaped(t: Totals) {
    |t.dist| == 5
  }

  function Average(sum: int, count: int): int {
    if count > 0 then (200 * sum + count) / (2 * count) else 0
  }

  // ---------------------------------------------------------------------------
  // The two forms
  // ---------------------------------------------------------------------------

  function Sum(rs: seq<Rating>): nat {
    if rs == [] then 0 else (if rs[0].status.Active? then rs[0].stars else 0) + Sum(rs[1..])
  }

  function Count(rs: seq<Rating>): nat {
    if rs == [] then 0 else (if rs[0].status.Active? then 1 else 0) + Count(rs[1..])
  }

  function Rated(rs: seq<Rating>, s: nat): nat {
    if rs == [] then 0 else (if rs[0].status.Active? && rs[0].stars == s then 1 else 0) + Rated(rs[1..], s)
  }

  function Distribution(rs: seq<Rating>): seq<int> {
    [Rated(rs, 1), Rated(rs, 2), Rated(rs, 3), Rated(rs, 4), Rated(rs, 5)]
  }

  /** What a rebuild stores. */
  function Rebuilt(rs: seq<Rating>): Totals {
    Totals(Sum(rs), Count(rs), Distribution(rs), Average(Sum(rs), Count(rs)))
  }

  /** updateProductAggregate: add `sign` ratings of s stars, never going below 0. */
  function Bump(t: Totals, s: Stars, sign: int): Totals
    requires Shaped(t)
  {
    var sum, count := Max(0, t.sum + sign * s), Max(0, t.count + sign);
    Totals(sum, count, t.dist[s - 1 := Max(0, t.dist[s - 1] + sign)], Average(sum, count))
  }

  // ---------------------------------------------------------------------------
  // Steps
  // ---------------------------------------------------------------------------

  /**
   * A moderation request reads the rating before its transaction opens; `was` is what it
   * read. The transaction itself is one step, and so is a submission.
   */
  datatype Pending = Pending(key: nat, was: Status, to: Status)

  datatype Event =
    | Submit(key: nat, stars: Stars)
    | Ask(e: nat, key: nat, to: Status)
    | Commit(e: nat)
    | Rebuild

  datatype World = World(ratings: seq<Rating>, totals: Totals, asked: map<nat, Pending>)

  function At(rs: seq<Rating>, key: nat): (k: nat)
    ensures k <= |rs|
    ensures k < |rs| ==> rs[k].key == key
    ensures k == |rs| ==> forall j :: 0 <= j < |rs| ==> rs[j].key != key
  {
    if rs == [] || rs[0].key == key then 0 else 1 + At(rs[1..], key)
  }

  function Worth(s: Status): int {
    if s.Active? then 1 else 0
  }

  /** The totals after a status change: touched only when the rating enters or leaves ACTIVE. */
  function Shifted(t: Totals, s: Stars, was: Status, to: Status): Totals
    requires Shaped(t)
  {
    if Worth(was) == Worth(to) then t else Bump(t, s, Worth(to) - Worth(was))
  }

  function Apply(w: World, ev: Event): (after: World)
    requires Shaped(w.totals)
    ensures Shaped(after.totals)
  {
    match ev
    case Submit(key, stars) =>
      if At(w.ratings, key) < |w.ratings| then w
      else w.(ratings := w.ratings + [Rating(key, stars, Active)], totals := Bump(w.totals, stars, 1))
    case Ask(e, key, to) =>
      var k := At(w.ratings, key);
      if e in w.asked || k == |w.ratings| || w.ratings[k].status == to then w
      else w.(asked := w.asked[e := Pending(key, w.ratings[k].status, to)])
    case Commit(e) =>
      if e !in w.asked then w
      else
        var p := w.asked[e];
        var k := At(w.ratings, p.key);
        if k == |w.ratings| then w
        else World(w.ratings[k := w.ratings[k].(status := p.to)],
                   Shifted(w.totals, w.ratings[k].stars, p.was, p.to), w.asked - {e})
    case Rebuild => w.(totals := Rebuilt(w.ratings))
  }

  function Run(w: World, evs: seq<Event>): (after: World)
    requires Shaped(w.totals)
    ensures Shaped(after.totals)
    decreases |evs|
  {
    if evs == [] then w else Run(Apply(w, evs[0]), evs[1..])
  }

  predicate Synced(w: World) {
    w.totals == Rebuilt(w.ratings)
  }

  // ---------------------------------------------------------------------------
  // One change at a time
  // ---------------------------------------------------------------------------

  lemma {:induction false} CountingAppends(rs: seq<Rating>, r: Rating, s: nat)
    requires r.status.Active?
    ensures Sum(rs + [r]) == Sum(rs) + r.stars
    ensures Count(rs + [r]) == Count(rs) + 1
    ensures Rated(rs + [r], s) == Rated(rs, s) + if r.stars == s then 1 else 0
  {
    if rs == [] {
      assert [] + [r] == [r] && [r][1..] == [];
    } else {
      CountingAppends(rs[1..], r, s);
      assert (rs + [r])[1..] == rs[1..] + [r];
    }
  }

  lemma {:induction false} CountingChanges(rs: seq<Rating>, k: nat, to: Status, s: nat)
    requires k < |rs|
    ensures var d := Worth(to) - Worth(rs[k].status);
            var us := rs[k := rs[k].(status := to)];
      && Sum(us) == Sum(rs) + d * rs[k].stars
      && Count(us) == Count(rs) + d
      && Rated(us, s) == Rated(rs, s) + if rs[k].stars == s then d else 0
  {
    var us := rs[k := rs[k].(status := to)];
    if k == 0 {
      assert us[1..] == rs[1..];
    } else {
      CountingChanges(rs[1..], k - 1, to, s);
      assert us[1..] == rs[1..][k - 1 := us[k]];
    }
  }

  lemma SubmitBumps(rs: seq<Rating>, r: Rating)
    requires r.status.Active?
    ensures Bump(Rebuilt(rs), r.stars, 1) == Rebuilt(rs + [r])
  {
    forall s: nat ensures Rated(rs + [r], s) == Rated(rs, s) + if r.stars == s then 1 else 0 { CountingAppends(rs, r, s); }
    CountingAppends(rs, r, 1);
    assert Bump(Rebuilt(rs), r.stars, 1).dist == Distribution(rs + [r]);
  }

  /** No clamp changes a value: the counts it bounds include the rating being taken out. */
  lemma ChangeBumps(rs: seq<Rating>, k: nat, to: Status)
    requires k < |rs|
    ensures Shifted(Rebuilt(rs), rs[k].stars, rs[k].status, to) == Rebuilt(rs[k := rs[k].(status := to)])
  {
    var us := rs[k := rs[k].(status := to)];
    var d := Worth(to) - Worth(rs[k].status);
    forall s: nat ensures Rated(us, s) == Rated(rs, s) + if rs[k].stars == s then d else 0 { CountingChanges(rs, k, to, s); }
    CountingChanges(rs, k, to, 1);
    if d != 0 { assert Bump(Rebuilt(rs), rs[k].stars, d).dist == Distribution(us); }
  }

  /** When a commit keeps the totals right, given the status it read and the one now stored. */
  predicate ReadCurrent(w: World, ev: Event) {
    ev.Commit? && ev.e in w.asked && At(w.ratings, w.asked[ev.e].key) < |w.ratings| ==>
      var p := w.asked[ev.e];
      var now := w.ratings[At(w.ratings, p.key)].status;
      || now.Active? == p.was.Active?
      || (p.was.Active? && !p.to.Active? && w.totals.count == 0)
  }

  /** Each pending request asks for another status than it read. */
  predicate Asking(w: World) {
    forall e :: e in w.asked ==> w.asked[e].was != w.asked[e].to
  }

  lemma {:induction false} NothingActive(rs: seq<Rating>, s: nat)
    requires Count(rs) == 0
    ensures Sum(rs) == 0 && Rated(rs, s) == 0
  {
    if rs != [] { NothingActive(rs[1..], s); }
  }

  lemma StaleCommit(rs: seq<Rating>, k: nat, was: Status, to: Status)
    requires k < |rs| && was != to && rs[k].status.Active? != was.Active?
    ensures Shifted(Rebuilt(rs), rs[k].stars, was, to) == Rebuilt(rs[k := rs[k].(status := to)])
       <==> was.Active? && !to.Active? && Count(rs) == 0
  {
    CountingChanges(rs, k, to, 1);
    if was.Active? && !to.Active? && Count(rs) == 0 {
      forall s: nat ensures Rated(rs, s) == 0 && Sum(rs) == 0 { NothingActive(rs, s); }
      ChangeBumps(rs, k, to);
      assert Bump(Rebuilt(rs), rs[k].stars, -1).dist == Distribution(rs);
    }
  }

  /** Every step keeps the totals equal to a rebuild, except a commit on a status it misread. */
  lemma StepKeepsSyncIff(w: World, ev: Event)
    requires Synced(w) && Asking(w)
    ensures Synced(Apply(w, ev)) <==> ReadCurrent(w, ev)
    ensures Asking(Apply(w, ev))
  {
    match ev
    case Submit(key, stars) => SubmitBumps(w.ratings, Rating(key, stars, Active));
    case Ask(e, key, to) =>
    case Commit(e) =>
      if e in w.asked && At(w.ratings, w.asked[e].key) < |w.ratings| {
        var p := w.asked[e];
        var k := At(w.ratings, p.key);
        if w.ratings[k].status.Active? == p.was.Active? {
          ChangeBumps(w.ratings, k, p.to);
        } else {
          StaleCommit(w.ratings, k, p.was, p.to);
        }
      }
    case Rebuild =>
  }

  // ---------------------------------------------------------------------------
  // Runs
  // ---------------------------------------------------------------------------

  ghost predicate AllReadCurrent(w: World, evs: seq<Event>)
    requires Shaped(w.totals)
    decreases |evs|
  {
    evs != [] ==> ReadCurrent(w, evs[0]) && AllReadCurrent(Apply(w, evs[0]), evs[1..])
  }

  /** The incremental totals equal the full rebuild after every run, and mean what they say. */
  lemma {:induction false} IncrementalIsRebuild(w: World, evs: seq<Event>)
    requires Synced(w) && Asking(w) && AllReadCurrent(w, evs)
    ensures Synced(Run(w, evs))
    ensures var t := Run(w, evs).totals;
      && t.sum == t.dist[0] + 2 * t.dist[1] + 3 * t.dist[2] + 4 * t.dist[3] + 5 * t.dist[4]
      && t.count == t.dist[0] + t.dist[1] + t.dist[2] + t.dist[3] + t.dist[4]
      && (forall s :: 0 <= s < 5 ==> t.dist[s] >= 0)
      && (t.count > 0 ==> 100 <= t.average <= 500)
      && (t.count == 0 ==> t.sum == t.average == 0)
    decreases |evs|
  {
    if evs == [] {
      TotalsAddUp(w.ratings);
      if w.totals.count > 0 { AverageInRange(w.totals.sum, w.totals.count); }
    } else {
      StepKeepsSyncIff(w, evs[0]);
      IncrementalIsRebuild(Apply(w, evs[0]), evs[1..]);
    }
  }

  lemma {:induction false} TotalsAddUp(rs: seq<Rating>)
    ensures Sum(rs) == Rated(rs, 1) + 2 * Rated(rs, 2) + 3 * Rated(rs, 3) + 4 * Rated(rs, 4) + 5 * Rated(rs, 5)
    ensures Count(rs) == Rated(rs, 1) + Rated(rs, 2) + Rated(rs, 3) + Rated(rs, 4) + Rated(rs, 5)
  {
    if rs != [] { TotalsAddUp(rs[1..]); }
  }

  lemma Between(n: int, m: int, lo: int, hi: int)
    requires m > 0 && m * lo <= n < m * (hi + 1)
    ensures lo <= n / m <= hi
  {
    var q := n / m;
    if q < lo { Scaled(m, q + 1, lo); }
    if q > hi { Scaled(m, hi + 1, q); }
  }

  lemma Scaled(m: int, a: int, b: int)
    requires m > 0 && a <= b
    ensures m * a <= m * b
  {
  }

  lemma AverageInRange(sum: int, count: int)
    requires count > 0 && count <= sum <= 5 * count
    ensures 100 <= Average(sum, count) <= 500
  {
    Between(200 * sum + count, 2 * count, 100, 500);
  }

  /** A rebuild repairs any totals. */
  lemma RebuildRepairs(w: World, evs: seq<Event>)
    requires Shaped(w.totals) && Asking(w) && AllReadCurrent(Apply(w, Rebuild), evs)
    ensures Synced(Run(w, [Rebuild] + evs))
  {
    assert ([Rebuild] + evs)[1..] == evs;
    IncrementalIsRebuild(Apply(w, Rebuild), evs);
  }

  /** A moderator hides the only rating of a product twice at once, next to one other rating: it is counted out twice. */
  lemma HiddenTwice()
    ensures var w := World([Rating(1, 5, Active), Rating(2, 4, Active)], Rebuilt([Rating(1, 5, Active), Rating(2, 4, Active)]), map[]);
            var after := Run(w, [Ask(1, 1, Hidden), Ask(2, 1, Hidden), Commit(1), Commit(2)]);
      Synced(w) && after.totals.count == 0 && Rebuilt(after.ratings).count == 1
  {
  }

  // ---------------------------------------------------------------------------
  // The handlers
  // ---------------------------------------------------------------------------

  class RatingDesk {
    var ratings: seq<Rating>
    var totals: Totals

    constructor ()
      ensures Now() == World([], Rebuilt([]), map[]) && Synced(Now())
    {
      ratings, totals := [], Totals(0, 0, [0, 0, 0, 0, 0], 0);
    }

    function Now(): World
      reads this
    {
      World(ratings, totals, map[])
    }

    method Find(key: nat) returns (k: nat)
      ensures k == At(ratings, key)
    {
      k := 0;
      while k < |ratings| && ratings[k].key != key
        invariant k <= |ratings| && k + At(ratings[k..], key) == At(ratings, key)
      {
        k := k + 1;
      }
    }

    /** updateProductAggregate. */
    method UpdateAggregate(s: Stars, sign: int)
      requires Shaped(totals)
      modifies this`totals
      ensures totals == Bump(old(totals), s, sign)
    {
      var sum := Max(0, totals.sum + sign * s);
      var count := Max(0, totals.count + sign);
      var dist := totals.dist[s - 1 := Max(0, totals.dist[s - 1] + sign)];
      totals := Totals(sum, count, dist, Average(sum, count));
    }

    method SubmitRating(key: nat, s: Stars) returns (accepted: bool)
      requires Shaped(totals)
      modifies this
      ensures Now() == Apply(old(Now()), Submit(key, s))
      ensures accepted <==> forall j :: 0 <= j < |old(ratings)| ==> old(ratings)[j].key != key
      ensures old(Synced(Now())) ==> Synced(Now())
    {
      var k := Find(key);
      accepted := k == |ratings|;
      if !accepted { return; }
      SubmitBumps(ratings, Rating(key, s, Active));
      ratings := ratings + [Rating(key, s, Active)];
      UpdateAggregate(s, 1);
    }

    /** updateRatingStatus, with no other request in between. */
    method UpdateStatus(key: nat, to: Status) returns (found: bool)
      requires Shaped(totals)
      modifies this
      ensures found <==> At(old(ratings), key) < |old(ratings)|
      ensures !found ==> Now() == old(Now())
      ensures found ==> ratings == old(ratings)[At(old(ratings), key) := old(ratings)[At(old(ratings), key)].(status := to)]
      ensures old(Synced(Now())) ==> Synced(Now())
    {
      var k := Find(key);
      found := k < |ratings|;
      if !found { return; }
      var was := ratings[k].status;
      if was == to { return; }
      ChangeBumps(ratings, k, to);
      ratings := ratings[k := ratings[k].(status := to)];
      if was.Active? && !to.Active? {
        UpdateAggregate(ratings[k].stars, -1);
      } else if !was.Active? && to.Active? {
        UpdateAggregate(ratings[k].stars, 1);
      }
    }

    /** rebuildProductRatingAggregate. */
    method RebuildTotals()
      modifies this`totals
      ensures totals == Rebuilt(ratings)
    {
      var sum, count, dist := 0, 0, [0, 0, 0, 0, 0];
      var i := 0;
      while i < |ratings|
        invariant 0 <= i <= |ratings| && |dist| == 5
        invariant sum + Sum(ratings[i..]) == Sum(ratings)
        invariant count + Count(ratings[i..]) == Count(ratings)
        invariant forall s :: 1 <= s <= 5 ==> dist[s - 1] + Rated(ratings[i..], s) == Rated(ratings, s)
      {
        var r := ratings[i];
        if r.status.Active? {
          sum, count, dist := sum + r.stars, count + 1, dist[r.stars - 1 := dist[r.stars - 1] + 1];
        }
        i := i + 1;
      }
      assert dist == Distribution(ratings);
      totals := Totals(sum, count, dist, Average(sum, count));
    }
  }
}
