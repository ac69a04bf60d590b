/**
 * Cash submissions of one rider that overlap (deliveryController.submitDeliveryCodCashToAdmin): a
 * submission reads the due orders once, books its shares one transaction at a time and files its
 * settlement row last. Another submission may come between any two of these calls.
 */
module CodOverlap {
  import opened Wrappers
  import opened CodSettlement

  /** `left` is what the request read and has not booked yet; a dead request threw and files no row. */
  datatype Pass =
    | Open(left: seq<Share>, booked: int)
    | Filed(booked: int)
    | Dead(booked: int)

  datatype Desk = Desk(orders: seq<CodOrder>, admin: int, rows: seq<int>, passes: seq<Pass>)

  datatype Event =
    | Submit(requested: Option<int>)
    | Book(p: nat)
    | File(p: nat)
    | Fail(p: nat)                       // any other exception: a write conflict, a lost connection
    | Collect(order: nat, cash: nat)     // handleCodOrderFinance

  /** The shares of `amount`, oldest order first, from order `from` on. */
  function Plan(orders: seq<CodOrder>, from: nat, amount: nat): (shares: seq<Share>)
    requires from <= |orders|
    decreases |orders| - from
  {
    if from == |orders| then []
    else
      var share := Min(Due(orders[from]), amount);
      (if share > 0 then [Share(from, share)] else []) + Plan(orders, from + 1, amount - share)
  }

  function Outstanding(o: CodOrder): int {
    o.collected - o.remitted
  }

  predicate Fits(orders: seq<CodOrder>, s: Share) {
    s.order < |orders| && 0 < s.amount <= Outstanding(orders[s.order])
  }

  function Booked(orders: seq<CodOrder>, s: Share): seq<CodOrder>
    requires s.order < |orders|
  {
    orders[s.order := Settle(orders[s.order], s.amount).(pending := Outstanding(orders[s.order]) - s.amount)]
  }

  /** One call of reconcileCodCash. */
  function BookNext(s: Desk, p: nat): Desk
    requires p < |s.passes| && s.passes[p].Open? && s.passes[p].left != []
  {
    var pass := s.passes[p];
    var share := pass.left[0];
    if Fits(s.orders, share)
    then s.(orders := Booked(s.orders, share), admin := s.admin + share.amount,
            passes := s.passes[p := Open(pass.left[1..], pass.booked + share.amount)])
    else s.(passes := s.passes[p := Dead(pass.booked)])
  }

  predicate IsOpen(s: Desk, p: nat) {
    p < |s.passes| && s.passes[p].Open?
  }

  predicate Accepted(s: Desk, requested: Option<int>) {
    0 < requested.GetOr(Payable(s.orders)) <= Payable(s.orders)
  }

  function Apply(s: Desk, e: Event): Desk {
    match e
    case Submit(requested) =>
      if Accepted(s, requested)
      then s.(passes := s.passes + [Open(Plan(s.orders, 0, requested.GetOr(Payable(s.orders))), 0)])
      else s
    case Book(p) => if IsOpen(s, p) && s.passes[p].left != [] then BookNext(s, p) else s
    case File(p) =>
      if IsOpen(s, p) && s.passes[p].left == []
      then s.(rows := s.rows + [-s.passes[p].booked], passes := s.passes[p := Filed(s.passes[p].booked)])
      else s
    case Fail(p) => if IsOpen(s, p) then s.(passes := s.passes[p := Dead(s.passes[p].booked)]) else s
    case Collect(i, cash) =>
      if i < |s.orders| && !s.orders[i].ready
      then s.(orders := s.orders[i := CodOrder(true, s.orders[i].collected + cash, s.orders[i].remitted,
                                               s.orders[i].collected + cash - s.orders[i].remitted)])
      else s
  }

  function Run(s: Desk, es: seq<Event>): Desk
    decreases |es|
  {
    if es == [] then s else Run(Apply(s, es[0]), es[1..])
  }

  // ---------------------------------------------------------------------------
  // Whatever overlaps, no cash is made or lost
  // ---------------------------------------------------------------------------

  function Remitted(orders: seq<CodOrder>): int {
    if orders == [] then 0 else orders[0].remitted + Remitted(orders[1..])
  }

  function RowTotal(rows: seq<int>): int {
    if rows == [] then 0 else RowTotal(rows[..|rows| - 1]) + rows[|rows| - 1]
  }

  function Weight(pass: Pass): int {
    if pass.Filed? then 0 else pass.booked
  }

  /** Cash booked by requests that have no row: still open, or dead. */
  function Unfiled(passes: seq<Pass>): int {
    if passes == [] then 0 else Weight(passes[0]) + Unfiled(passes[1..])
  }

  predicate Sound(s: Desk) {
    && AllBalanced(s.orders)
    && forall p :: 0 <= p < |s.passes| ==> s.passes[p].booked >= 0
  }

  lemma {:induction false} RemittedSet(orders: seq<CodOrder>, i: nat, o: CodOrder)
    requires i < |orders|
    ensures Remitted(orders[i := o]) == Remitted(orders) - orders[i].remitted + o.remitted
  {
    if i > 0 {
      RemittedSet(orders[1..], i - 1, o);
      assert orders[i := o][1..] == orders[1..][i - 1 := o];
    } else {
      assert orders[i := o][1..] == orders[1..];
    }
  }

  lemma {:induction false} UnfiledSet(passes: seq<Pass>, p: nat, pass: Pass)
    requires p < |passes|
    ensures Unfiled(passes[p := pass]) == Unfiled(passes) - Weight(passes[p]) + Weight(pass)
  {
    if p > 0 {
      UnfiledSet(passes[1..], p - 1, pass);
      assert passes[p := pass][1..] == passes[1..][p - 1 := pass];
    } else {
      assert passes[p := pass][1..] == passes[1..];
    }
  }

  lemma {:induction false} UnfiledOpened(passes: seq<Pass>, left: seq<Share>)
    ensures Unfiled(passes + [Open(left, 0)]) == Unfiled(passes)
  {
    if passes != [] {
      UnfiledOpened(passes[1..], left);
      assert (passes + [Open(left, 0)])[1..] == passes[1..] + [Open(left, 0)];
    }
  }

  /** One event: the admin holds what the orders remitted, and the rows tell all of it but what is unfiled. */
  lemma StepConserves(s: Desk, e: Event)
    requires Sound(s)
    ensures var t := Apply(s, e);
      && Sound(t)
      && t.admin - Remitted(t.orders) == s.admin - Remitted(s.orders)
      && t.admin + RowTotal(t.rows) - Unfiled(t.passes) == s.admin + RowTotal(s.rows) - Unfiled(s.passes)
  {
    match e {
      case Submit(requested) =>
        UnfiledOpened(s.passes, Plan(s.orders, 0, if Accepted(s, requested) then requested.GetOr(Payable(s.orders)) else 0));
      case Book(p) =>
        if IsOpen(s, p) && s.passes[p].left != [] {
          var share := s.passes[p].left[0];
          var t := BookNext(s, p);
          UnfiledSet(s.passes, p, t.passes[p]);
          if Fits(s.orders, share) { RemittedSet(s.orders, share.order, t.orders[share.order]); }
        }
      case File(p) =>
        if IsOpen(s, p) && s.passes[p].left == [] { UnfiledSet(s.passes, p, Filed(s.passes[p].booked)); }
      case Fail(p) =>
        if IsOpen(s, p) { UnfiledSet(s.passes, p, Dead(s.passes[p].booked)); }
      case Collect(i, cash) =>
        if i < |s.orders| && !s.orders[i].ready { RemittedSet(s.orders, i, Apply(s, e).orders[i]); }
    }
  }

  /**
   * On every run, however submissions overlap and wherever they break off: no order remits more
   * than was collected on it, the admin gains exactly what the orders remit, and the settlement
   * rows tell all of it except what requests without a row have booked.
   */
  lemma {:induction false} CashConserved(s: Desk, es: seq<Event>)
    requires Sound(s)
    ensures var t := Run(s, es);
      && Sound(t)
      && t.admin - s.admin == Remitted(t.orders) - Remitted(s.orders)
      && (t.admin - s.admin) + (RowTotal(t.rows) - RowTotal(s.rows)) == Unfiled(t.passes) - Unfiled(s.passes)
    decreases |es|
  {
    if es != [] {
      StepConserves(s, es[0]);
      CashConserved(Apply(s, es[0]), es[1..]);
    }
  }

  lemma {:induction false} NothingUnfiledIff(passes: seq<Pass>)
    requires forall p :: 0 <= p < |passes| ==> passes[p].booked >= 0
    ensures Unfiled(passes) >= 0
    ensures Unfiled(passes) == 0 <==> forall p :: 0 <= p < |passes| ==> Weight(passes[p]) == 0
  {
    if passes != [] {
      NothingUnfiledIff(passes[1..]);
      if forall p :: 0 <= p < |passes| ==> Weight(passes[p]) == 0 {
        assert forall p :: 0 <= p < |passes| - 1 ==> passes[1..][p] == passes[p + 1];
      }
    }
  }

  /** The rows explain the admin's cash exactly when no request without a row has booked any. */
  lemma RowsExplainCashIff(s: Desk, es: seq<Event>)
    requires AllBalanced(s.orders) && s.passes == []
    ensures var t := Run(s, es);
      RowTotal(t.rows) - RowTotal(s.rows) == -(t.admin - s.admin)
      <==> forall p :: 0 <= p < |t.passes| ==> t.passes[p].Filed? || t.passes[p].booked == 0
  {
    CashConserved(s, es);
    var t := Run(s, es);
    NothingUnfiledIff(t.passes);
    assert forall p :: 0 <= p < |t.passes| ==> (Weight(t.passes[p]) == 0 <==> t.passes[p].Filed? || t.passes[p].booked == 0);
  }

  // ---------------------------------------------------------------------------
  // When a submission runs through
  // ---------------------------------------------------------------------------

  /** Every share still to book fits, and they are of distinct orders. */
  predicate Covered(orders: seq<CodOrder>, left: seq<Share>) {
    && (forall k :: 0 <= k < |left| ==> Fits(orders, left[k]))
    && (forall j, k :: 0 <= j < k < |left| ==> left[j].order < left[k].order)
  }

  lemma {:induction false} PlanCovered(orders: seq<CodOrder>, from: nat, amount: nat)
    requires AllBalanced(orders) && from <= |orders|
    ensures var left := Plan(orders, from, amount);
      Covered(orders, left) && forall k :: 0 <= k < |left| ==> from <= left[k].order
    decreases |orders| - from
  {
    if from < |orders| { PlanCovered(orders, from + 1, amount - Min(Due(orders[from]), amount)); }
  }

  /** Booking a share strands another open submission exactly when both want the same order and it cannot pay both. */
  lemma StrandsIff(orders: seq<CodOrder>, share: Share, other: seq<Share>)
    requires Fits(orders, share) && Covered(orders, other)
    ensures Covered(Booked(orders, share), other) <==>
      forall k :: 0 <= k < |other| && other[k].order == share.order ==>
        other[k].amount + share.amount <= Outstanding(orders[share.order])
  {
    var after := Booked(orders, share);
    assert forall k :: 0 <= k < |other| ==>
      (Fits(after, other[k]) <==> (other[k].order == share.order ==> other[k].amount + share.amount <= Outstanding(orders[share.order])));
  }

  /** The event that ends an open request without its row: a share that no longer fits, or another exception. */
  predicate Kills(s: Desk, e: Event) {
    || (e.Fail? && IsOpen(s, e.p))
    || (e.Book? && IsOpen(s, e.p) && s.passes[e.p].left != [] && !Fits(s.orders, s.passes[e.p].left[0]))
  }

  ghost predicate NeverKills(s: Desk, es: seq<Event>)
    decreases |es|
  {
    es != [] ==> !Kills(s, es[0]) && NeverKills(Apply(s, es[0]), es[1..])
  }

  predicate NoneDead(s: Desk) {
    forall p :: 0 <= p < |s.passes| ==> !s.passes[p].Dead?
  }

  lemma {:induction false} DeadStays(s: Desk, es: seq<Event>)
    requires !NoneDead(s)
    ensures !NoneDead(Run(s, es))
    decreases |es|
  {
    if es != [] {
      var p :| 0 <= p < |s.passes| && s.passes[p].Dead?;
      assert Apply(s, es[0]).passes[p] == s.passes[p];
      DeadStays(Apply(s, es[0]), es[1..]);
    }
  }

  /** Every accepted submission of a run is filed or still open exactly when no event kills one. */
  lemma {:induction false} NoneDiesIff(s: Desk, es: seq<Event>)
    requires NoneDead(s)
    ensures NoneDead(Run(s, es)) <==> NeverKills(s, es)
    decreases |es|
  {
    if es != [] {
      var t := Apply(s, es[0]);
      if Kills(s, es[0]) {
        assert t.passes[es[0].p].Dead?;
        DeadStays(t, es[1..]);
      } else {
        NoneDiesIff(t, es[1..]);
      }
    }
  }

  /** A submission is accepted only while no other is open, and nothing else fails. */
  ghost predicate OneAtATime(s: Desk, es: seq<Event>)
    decreases |es|
  {
    es != [] ==>
      && (es[0].Submit? && Accepted(s, es[0].requested) ==> forall p :: 0 <= p < |s.passes| ==> !s.passes[p].Open?)
      && (es[0].Fail? ==> !IsOpen(s, es[0].p))
      && OneAtATime(Apply(s, es[0]), es[1..])
  }

  /** Nothing died, at most one submission is open, and it can be booked to its end. */
  ghost predicate Smooth(s: Desk) {
    && Sound(s) && NoneDead(s)
    && (forall p, q :: 0 <= p < q < |s.passes| ==> !(s.passes[p].Open? && s.passes[q].Open?))
    && (forall p :: 0 <= p < |s.passes| && s.passes[p].Open? ==> Covered(s.orders, s.passes[p].left))
  }

  lemma NextCovered(orders: seq<CodOrder>, left: seq<Share>)
    requires left != [] && Covered(orders, left)
    ensures Covered(Booked(orders, left[0]), left[1..])
  {
  }

  lemma SubmitSmooth(s: Desk, requested: Option<int>)
    requires Smooth(s) && OneAtATime(s, [Submit(requested)])
    ensures Smooth(Apply(s, Submit(requested)))
  {
    StepConserves(s, Submit(requested));
    if Accepted(s, requested) { PlanCovered(s.orders, 0, requested.GetOr(Payable(s.orders))); }
    hide Plan, Payable, Sound, Covered;
  }

  lemma BookSmooth(s: Desk, p: nat)
    requires Smooth(s)
    ensures Smooth(Apply(s, Book(p)))
  {
    StepConserves(s, Book(p));
    if IsOpen(s, p) && s.passes[p].left != [] {
      NextCovered(s.orders, s.passes[p].left);
      assert Fits(s.orders, s.passes[p].left[0]);
    }
    hide Sound, Covered, Booked, Fits;
  }

  lemma CollectSmooth(s: Desk, i: nat, cash: nat)
    requires Smooth(s)
    ensures Smooth(Apply(s, Collect(i, cash)))
  {
    StepConserves(s, Collect(i, cash));
    hide Sound;
  }

  lemma StepSmooth(s: Desk, e: Event)
    requires Smooth(s) && OneAtATime(s, [e])
    ensures Smooth(Apply(s, e))
  {
    match e
    case Submit(requested) => SubmitSmooth(s, requested);
    case Book(p) => BookSmooth(s, p);
    case Collect(i, cash) => CollectSmooth(s, i, cash);
    case _ =>
      StepConserves(s, e);
      hide Sound, Covered;
  }

  /** Submissions that do not overlap all get their row: at any moment only the open one is unfiled. */
  lemma {:induction false} OneAtATimeFilesAll(s: Desk, es: seq<Event>)
    requires Smooth(s) && OneAtATime(s, es)
    ensures Smooth(Run(s, es))
    decreases |es|
  {
    if es != [] {
      assert es[..1] == [es[0]];
      StepSmooth(s, es[0]);
      OneAtATimeFilesAll(Apply(s, es[0]), es[1..]);
    }
  }

  // ---------------------------------------------------------------------------
  // Alone it is the submission of CodBook
  // ---------------------------------------------------------------------------

  function BookAll(orders: seq<CodOrder>, left: seq<Share>): seq<CodOrder>
    decreases |left|
  {
    if left == [] || left[0].order >= |orders| then orders else BookAll(Booked(orders, left[0]), left[1..])
  }

  lemma {:induction false} PlanReads(a: seq<CodOrder>, b: seq<CodOrder>, from: nat, amount: nat)
    requires |a| == |b| && from <= |a| && a[from..] == b[from..]
    ensures Plan(a, from, amount) == Plan(b, from, amount)
    decreases |a| - from
  {
    if from < |a| {
      assert a[from] == a[from..][0] == b[from];
      assert a[from + 1..] == a[from..][1..] == b[from + 1..];
      PlanReads(a, b, from + 1, amount - Min(Due(a[from]), amount));
    }
  }

  lemma BookFirst(orders: seq<CodOrder>, from: nat, share: nat, rest: seq<Share>)
    requires AllBalanced(orders) && from < |orders|
    ensures BookAll(orders, (if share > 0 then [Share(from, share)] else []) + rest)
         == BookAll(orders[from := Settle(orders[from], share)], rest)
  {
    var next := orders[from := Settle(orders[from], share)];
    if share == 0 {
      assert next == orders && [] + rest == rest;
    } else {
      assert Booked(orders, Share(from, share)) == next;
      assert ([Share(from, share)] + rest)[1..] == rest;
    }
  }

  lemma SettleFirst(orders: seq<CodOrder>, from: nat, amount: nat)
    requires from < |orders|
    ensures var share := Min(Due(orders[from]), amount);
      var next := orders[from := Settle(orders[from], share)];
      orders[..from] + SettleOldest(orders[from..], amount) == next[..from + 1] + SettleOldest(next[from + 1..], amount - share)
  {
    var share := Min(Due(orders[from]), amount);
    var next := orders[from := Settle(orders[from], share)];
    assert orders[from..][1..] == orders[from + 1..] == next[from + 1..];
    assert next[..from + 1] == orders[..from] + [Settle(orders[from], share)];
  }

  /** Booking what was read, share by share, is the oldest-first settlement. */
  lemma {:induction false} BookingIsSettling(orders: seq<CodOrder>, from: nat, amount: nat)
    requires AllBalanced(orders) && from <= |orders|
    ensures BookAll(orders, Plan(orders, from, amount)) == orders[..from] + SettleOldest(orders[from..], amount)
    decreases |orders| - from
  {
    if from == |orders| {
      assert orders[from..] == [] && orders[..from] + [] == orders;
    } else {
      var share := Min(Due(orders[from]), amount);
      var next := orders[from := Settle(orders[from], share)];
      assert next[from + 1..] == orders[from + 1..];
      PlanReads(orders, next, from + 1, amount - share);
      BookingIsSettling(next, from + 1, amount - share);
      BookFirst(orders, from, share, Plan(orders, from + 1, amount - share));
      SettleFirst(orders, from, amount);
    }
  }

  function ShareTotal(shares: seq<Share>): int {
    if shares == [] then 0 else shares[0].amount + ShareTotal(shares[1..])
  }

  lemma FirstBooked(s: Desk, p: nat)
    requires IsOpen(s, p) && Covered(s.orders, s.passes[p].left) && s.passes[p].left != []
    ensures var left, t := s.passes[p].left, BookNext(s, p);
      && Apply(s, Book(p)) == t && left[0].order < |s.orders| && t.orders == Booked(s.orders, left[0])
      && t.admin == s.admin + left[0].amount && t.rows == s.rows
      && t.passes == s.passes[p := Open(left[1..], s.passes[p].booked + left[0].amount)]
      && Covered(t.orders, left[1..])
  {
    NextCovered(s.orders, s.passes[p].left);
    assert Fits(s.orders, s.passes[p].left[0]);
    hide Booked, Covered;
  }

  /** An open submission that is covered books all it read and files one row, if nothing comes between. */
  lemma {:induction false} RunsThrough(s: Desk, p: nat)
    requires IsOpen(s, p) && Covered(s.orders, s.passes[p].left)
    ensures var left := s.passes[p].left;
      var total := ShareTotal(left);
      Run(s, seq(|left|, _ => Book(p)) + [File(p)]) ==
      Desk(BookAll(s.orders, left), s.admin + total, s.rows + [-(s.passes[p].booked + total)],
           s.passes[p := Filed(s.passes[p].booked + total)])
    decreases |s.passes[p].left|
  {
    var left := s.passes[p].left;
    var es := seq(|left|, _ => Book(p)) + [File(p)];
    if left == [] {
      assert es == [File(p)] && es[1..] == [];
    } else {
      var t := BookNext(s, p);
      FirstBooked(s, p);
      hide Fits, Booked, Apply, BookNext, Covered;
      RunsThrough(t, p);
      assert es[0] == Book(p) && es[1..] == seq(|left| - 1, _ => Book(p)) + [File(p)];
      var filed := Filed(s.passes[p].booked + ShareTotal(left));
      assert t.passes[p := filed] == s.passes[p := filed];
    }
  }

  lemma {:induction false} PlanTotal(orders: seq<CodOrder>, from: nat, amount: nat)
    requires from <= |orders|
    ensures ShareTotal(Plan(orders, from, amount)) == Min(amount, Payable(orders[from..]))
    decreases |orders| - from
  {
    if from < |orders| {
      var share := Min(Due(orders[from]), amount);
      var rest := Plan(orders, from + 1, amount - share);
      PlanTotal(orders, from + 1, amount - share);
      assert orders[from..][1..] == orders[from + 1..];
      assert [] + rest == rest && ([Share(from, share)] + rest)[1..] == rest;
    }
  }

  /** An accepted submission with nothing in between leaves the books of the handler's specification and one row. */
  lemma AloneSettles(s: Desk, requested: Option<int>)
    requires AllBalanced(s.orders) && Accepted(s, requested)
    ensures var amount := requested.GetOr(Payable(s.orders));
      var p := |s.passes|;
      var n := |Plan(s.orders, 0, amount)|;
      Run(Apply(s, Submit(requested)), seq(n, _ => Book(p)) + [File(p)]) ==
      Desk(SettleOldest(s.orders, amount), s.admin + amount, s.rows + [-amount], s.passes + [Filed(amount)])
  {
    var amount := requested.GetOr(Payable(s.orders));
    var t := Apply(s, Submit(requested));
    assert s.orders[0..] == s.orders && s.orders[..0] == [];
    PlanCovered(s.orders, 0, amount);
    PlanTotal(s.orders, 0, amount);
    BookingIsSettling(s.orders, 0, amount);
    RunsThrough(t, |s.passes|);
    assert t.passes[|s.passes| := Filed(amount)] == s.passes + [Filed(amount)];
  }

  const SHARE := [Share(1, 10)]

  lemma Reads()
    ensures var o := CodOrder(true, 10, 0, 10);
      && Payable([o, o]) == 20 && Plan([o, o], 0, 20) == [Share(0, 10)] + SHARE
      && Payable([Settle(o, 10), o]) == 10 && Plan([Settle(o, 10), o], 0, 10) == SHARE
  {
    var o := CodOrder(true, 10, 0, 10);
    var done := Settle(o, 10);
    assert [o, o][1..] == [o] && [done, o][1..] == [o] && [o][1..] == [];
    assert Payable([o]) == 10;
    assert Plan([o, o], 2, 0) == [] && Plan([done, o], 2, 0) == [];
    assert Plan([o, o], 1, 10) == SHARE && Plan([done, o], 1, 10) == SHARE;
  }

  lemma RunThree(s: Desk, a: Event, b: Event, c: Event, es: seq<Event>)
    ensures Run(s, [a, b, c] + es) == Run(Apply(Apply(Apply(s, a), b), c), es)
  {
    hide Apply;
    var all := [a, b, c] + es;
    assert all[1..] == [b, c] + es && all[1..][1..] == [c] + es && all[1..][1..][1..] == es;
    assert Run(s, all) == Run(Apply(s, a), all[1..]);
    assert Run(Apply(s, a), all[1..]) == Run(Apply(Apply(s, a), b), all[1..][1..]);
  }

  lemma FirstBooksOne()
    ensures var o := CodOrder(true, 10, 0, 10);
      Apply(Apply(Apply(Desk([o, o], 0, [], []), Submit(None)), Book(0)), Submit(None))
      == Desk([Settle(o, 10), o], 10, [], [Open(SHARE, 10), Open(SHARE, 0)])
  {
    Reads();
    hide Plan, Payable;
    var o := CodOrder(true, 10, 0, 10);
    var done := Settle(o, 10);
    var whole := [Share(0, 10)] + SHARE;
    var a := Desk([o, o], 0, [], [Open(whole, 0)]);
    assert Apply(Desk([o, o], 0, [], []), Submit(None)) == a;
    var b := Desk([done, o], 10, [], [Open(SHARE, 10)]);
    assert whole[1..] == SHARE && Booked(a.orders, Share(0, 10)) == [done, o] && a.passes[0 := Open(SHARE, 10)] == [Open(SHARE, 10)];
    assert Apply(a, Book(0)) == BookNext(a, 0) == b;
    hide Booked, Fits;
    assert Apply(b, Submit(None)).passes == [Open(SHARE, 10)] + [Open(SHARE, 0)] == [Open(SHARE, 10), Open(SHARE, 0)];
  }

  lemma SecondBooksTheOther()
    ensures var o := CodOrder(true, 10, 0, 10);
      Apply(Apply(Apply(Desk([Settle(o, 10), o], 10, [], [Open(SHARE, 10), Open(SHARE, 0)]), Book(1)), File(1)), Book(0))
      == Desk([Settle(o, 10), Settle(o, 10)], 20, [-10], [Dead(10), Filed(10)])
  {
    var o := CodOrder(true, 10, 0, 10);
    var done := Settle(o, 10);
    hide Plan, Payable;
    var c := Desk([done, o], 10, [], [Open(SHARE, 10), Open(SHARE, 0)]);
    var d := Apply(c, Book(1));
    assert d == BookNext(c, 1) && SHARE[1..] == [];
    assert Booked(c.orders, Share(1, 10)) == [done, done] && c.passes[1 := Open([], 10)] == [Open(SHARE, 10), Open([], 10)];
    assert d == Desk([done, done], 20, [], [Open(SHARE, 10), Open([], 10)]);
    var f := Desk([done, done], 20, [-10], [Open(SHARE, 10), Filed(10)]);
    assert Apply(d, File(1)) == f;
    assert !Fits(f.orders, Share(1, 10));
    hide Fits, Booked;
    assert Apply(f, Book(0)) == BookNext(f, 0) == f.(passes := f.passes[0 := Dead(10)]);
    assert f.passes[0 := Dead(10)] == [Dead(10), Filed(10)];
  }

  /** The second submission reads after the first booked its first order: the first then throws with cash booked and no row. */
  lemma OverlapLeavesCashWithoutRow()
    ensures var o := CodOrder(true, 10, 0, 10);
      var s := Desk([o, o], 0, [], []);
      && Sound(s)
      && Run(s, [Submit(None), Book(0), Submit(None), Book(1), File(1), Book(0)])
         == Desk([Settle(o, 10), Settle(o, 10)], 20, [-10], [Dead(10), Filed(10)])
  {
    FirstBooksOne();
    SecondBooksTheOther();
    hide Apply;
    var o := CodOrder(true, 10, 0, 10);
    var last := [Book(1), File(1), Book(0)];
    RunThree(Desk([o, o], 0, [], []), Submit(None), Book(0), Submit(None), last);
    RunThree(Desk([Settle(o, 10), o], 10, [], [Open(SHARE, 10), Open(SHARE, 0)]), Book(1), File(1), Book(0), []);
    assert last + [] == last;
    assert [Submit(None), Book(0), Submit(None)] + last == [Submit(None), Book(0), Submit(None), Book(1), File(1), Book(0)];
  }
}
