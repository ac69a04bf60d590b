/**
 * What the refund of a return books: one inspection from its check to its end, the refund
 * rows over runs, and the runs that refund twice.
 */
module ReturnRefund {
  import opened Wrappers
  import opened ReturnModel
  import opened ReturnFlow

  // ---------------------------------------------------------------------------
  // One inspection from its check to its end
  // ---------------------------------------------------------------------------

  function StagesLeft(stage: Stage): nat {
    match stage
    case Checked => 7 case Crediting => 6 case WalletRow => 5 case SellerRow => 4
    case Paying => 3 case RiderRow => 2 case Closing => 1 case Over => 0
  }

  /** The inspection runs to its end with nothing in between. */
  function Finish(c: Core, q: Inspection, sellerCanPay: bool, atomic: bool): Core
    decreases StagesLeft(q.stage)
  {
    if q.stage == Over then c
    else
      var r := InspectStep(c, q, sellerCanPay, atomic);
      Finish(r.0, r.1, sellerCanPay, atomic)
  }

  function Begin(c: Core, pass: bool): Inspection {
    Inspection(pass, Amount(c), PaysRider(c), c.commission, Checked)
  }

  function Steps(e: nat, sellerCanPay: bool, n: nat): seq<Event> {
    if n == 0 then [] else [QcStep(e, sellerCanPay)] + Steps(e, sellerCanPay, n - 1)
  }

  /** Finishing is playing the inspection's steps, one after another. */
  lemma {:induction false} FinishIsARun(w: World, e: nat, sellerCanPay: bool, atomic: bool)
    requires e < |w.inspections|
    ensures var q := w.inspections[e];
      Run(w, Steps(e, sellerCanPay, StagesLeft(q.stage)), atomic).core == Finish(w.core, q, sellerCanPay, atomic)
    decreases StagesLeft(w.inspections[e].stage)
  {
    var q := w.inspections[e];
    if q.stage != Over {
      var u := Apply(w, QcStep(e, sellerCanPay), atomic);
      InspectionStep(w, e, sellerCanPay, atomic);
      StagesLower(w, e, sellerCanPay, atomic, StagesLeft(q.stage));
      hide InspectStep, Apply;
      FinishIsARun(u, e, sellerCanPay, atomic);
      StepsFirst(e, sellerCanPay, StagesLeft(q.stage));
      OverIsStill(u, e, sellerCanPay, atomic, StagesLeft(u.inspections[e].stage), StagesLeft(q.stage) - 1);
    }
  }

  lemma InspectionStep(w: World, e: nat, sellerCanPay: bool, atomic: bool)
    requires e < |w.inspections|
    ensures var r := InspectStep(w.core, w.inspections[e], sellerCanPay, atomic);
      Apply(w, QcStep(e, sellerCanPay), atomic) == w.(core := r.0, inspections := w.inspections[e := r.1])
  {
    hide InspectStep;
  }

  lemma StagesFall(c: Core, q: Inspection, sellerCanPay: bool, atomic: bool)
    requires q.stage != Over
    ensures StagesLeft(InspectStep(c, q, sellerCanPay, atomic).1.stage) < StagesLeft(q.stage)
  {
    hide AtomicRefund;
  }

  /** Steps beyond the end of an inspection do nothing. */
  lemma {:induction false} OverIsStill(w: World, e: nat, sellerCanPay: bool, atomic: bool, m: nat, n: nat)
    requires e < |w.inspections| && StagesLeft(w.inspections[e].stage) <= m <= n
    ensures Run(w, Steps(e, sellerCanPay, n), atomic).core == Run(w, Steps(e, sellerCanPay, m), atomic).core
    decreases n
  {
    if n > 0 {
      StepsFirst(e, sellerCanPay, n);
      var u := Apply(w, QcStep(e, sellerCanPay), atomic);
      StagesLower(w, e, sellerCanPay, atomic, if m > 0 then m else n);
      hide Apply;
      if m > 0 {
        StepsFirst(e, sellerCanPay, m);
        OverIsStill(u, e, sellerCanPay, atomic, m - 1, n - 1);
      } else {
        OverStep(w, e, sellerCanPay, atomic);
        OverIsStill(u, e, sellerCanPay, atomic, 0, n - 1);
      }
    }
  }

  lemma StepsFirst(e: nat, sellerCanPay: bool, n: nat)
    requires n > 0
    ensures Steps(e, sellerCanPay, n)[0] == QcStep(e, sellerCanPay) && Steps(e, sellerCanPay, n)[1..] == Steps(e, sellerCanPay, n - 1)
  {
  }

  lemma StagesLower(w: World, e: nat, sellerCanPay: bool, atomic: bool, m: nat)
    requires e < |w.inspections| && StagesLeft(w.inspections[e].stage) <= m && m > 0
    ensures var u := Apply(w, QcStep(e, sellerCanPay), atomic);
      |u.inspections| == |w.inspections| && StagesLeft(u.inspections[e].stage) <= m - 1
  {
    var q := w.inspections[e];
    if q.stage != Over { StagesFall(w.core, q, sellerCanPay, atomic); } else { OverStep(w, e, sellerCanPay, atomic); }
    hide InspectStep;
  }

  lemma OverStep(w: World, e: nat, sellerCanPay: bool, atomic: bool)
    requires e < |w.inspections| && w.inspections[e].stage == Over
    ensures Apply(w, QcStep(e, sellerCanPay), atomic) == w
  {
    assert w.inspections[e := w.inspections[e]] == w.inspections;
  }

  function RowAmount(rows: map<Ref, int>, ref: Ref): int {
    if ref in rows then rows[ref] else 0
  }

  function RefundSum(c: Core): int {
    RowAmount(c.rows, RefWallet) + RowAmount(c.rows, RefSell)
  }

  /** The blocks of the refund without a transaction, from the last to the first. */
  lemma FromPaying(c: Core, q: Inspection)
    requires q.stage == Paying
    ensures Finish(c, q, true, false) ==
      if !q.pays then c.(status := Refunded)
      else if RetDel in c.rows then c.(paid := c.paid + [q.commission])
      else c.(paid := c.paid + [q.commission], rows := c.rows[RetDel := q.commission], status := Refunded)
  {
    var r := LegacyStep(c, q);
    var t := LegacyStep(r.0, r.1);
    assert Finish(c, q, true, false) == Finish(r.0, r.1, true, false) == Finish(t.0, t.1, true, false);
    if q.pays && RetDel !in c.rows {
      var v := LegacyStep(t.0, t.1);
      assert Finish(t.0, t.1, true, false) == Finish(v.0, v.1, true, false) == v.0;
    }
  }

  lemma FromSellerRow(c: Core, q: Inspection)
    requires q.stage == SellerRow
    ensures Finish(c, q, true, false) ==
      var paying := q.(stage := Paying);
      if !c.parties.seller || q.amount == 0 then Finish(c, paying, true, false)
      else if RefSell in c.rows then c
      else Finish(c.(rows := c.rows[RefSell := -(q.amount as int)]), paying, true, false)
  {
    var r := LegacyStep(c, q);
    assert Finish(c, q, true, false) == Finish(r.0, r.1, true, false);
  }

  lemma FromCrediting(c: Core, q: Inspection)
    requires q.stage == Crediting
    ensures Finish(c, q, true, false) ==
      var seller := q.(stage := SellerRow);
      var credited := c.(credits := c.credits + [q.amount]);
      if !c.parties.customer || q.amount == 0 || !c.parties.known then Finish(c, seller, true, false)
      else if RefWallet in c.rows then credited
      else Finish(credited.(rows := c.rows[RefWallet := q.amount]), seller, true, false)
  {
    var r := LegacyStep(c, q);
    var t := LegacyStep(r.0, r.1);
    assert Finish(c, q, true, false) == Finish(r.0, r.1, true, false);
    if c.parties.customer && q.amount > 0 && c.parties.known {
      assert Finish(r.0, r.1, true, false) == Finish(t.0, t.1, true, false);
    }
  }

  /** The last two blocks of a first refund. */
  lemma RiderBlock(c: Core, q: Inspection)
    requires q.stage == Paying && RetDel !in c.rows
    ensures var u := Finish(c, q, true, false);
      && u.status == Refunded && u.credits == c.credits && u.jobs == c.jobs && u.unbooked == c.unbooked && u.flagPaid == c.flagPaid
      && u.paid == (if q.pays then c.paid + [q.commission] else c.paid)
      && u.rows == (if q.pays then c.rows[RetDel := q.commission] else c.rows)
  {
    FromPaying(c, q);
    hide Finish;
  }

  lemma SellerBlock(c: Core, q: Inspection)
    requires q.stage == SellerRow && RetDel !in c.rows && RefSell !in c.rows
    ensures var u := Finish(c, q, true, false);
      && u.status == Refunded && u.credits == c.credits && u.jobs == c.jobs && u.unbooked == c.unbooked && u.flagPaid == c.flagPaid
      && u.paid == (if q.pays then c.paid + [q.commission] else c.paid)
      && RowAmount(u.rows, RefWallet) == RowAmount(c.rows, RefWallet)
      && RowAmount(u.rows, RefSell) == (if c.parties.seller && q.amount > 0 then -(q.amount as int) else 0)
      && (RetDrop in u.rows <==> RetDrop in c.rows)
  {
    FromSellerRow(c, q);
    RiderBlock(if c.parties.seller && q.amount > 0 then c.(rows := c.rows[RefSell := -(q.amount as int)]) else c, q.(stage := Paying));
    hide Finish;
  }

  /** What the first refund of a return books, by the body without a transaction. */
  lemma LegacyFirstRefund(c: Core)
    requires Unbooked(c)
    ensures var u := Finish(c, Begin(c, true), true, false);
      && u.status == Refunded && u.jobs == c.jobs && u.unbooked == c.unbooked && u.flagPaid == c.flagPaid
      && u.credits == (if RefundsCustomer(c) && c.parties.known then c.credits + [Amount(c)] else c.credits)
      && u.paid == (if PaysRider(c) then c.paid + [c.commission] else c.paid)
      && RowAmount(u.rows, RefWallet) == (if RefundsCustomer(c) && c.parties.known then Amount(c) else 0)
      && RowAmount(u.rows, RefSell) == (if ChargesSeller(c) then -(Amount(c) as int) else 0)
      && (RetDrop in u.rows <==> RetDrop in c.rows)
  {
    var q := Begin(c, true).(stage := Crediting);
    var saved := c.(status := QcPassed);
    assert Finish(c, Begin(c, true), true, false) == Finish(saved, q, true, false);
    FromCrediting(saved, q);
    var credited := saved.(credits := c.credits + [Amount(c)]);
    SellerBlock(if RefundsCustomer(c) && c.parties.known then credited.(rows := c.rows[RefWallet := Amount(c)]) else saved, q.(stage := SellerRow));
    hide Finish;
  }

  lemma AtomicFinish(c: Core, sellerCanPay: bool)
    ensures Finish(c, Begin(c, true), sellerCanPay, true) == AtomicRefund(c.(status := QcPassed), sellerCanPay)
  {
    var saved := InspectStep(c, Begin(c, true), sellerCanPay, true);
    hide AtomicRefund;
    var done := InspectStep(saved.0, saved.1, sellerCanPay, true);
    assert Finish(saved.0, saved.1, sellerCanPay, true) == Finish(done.0, done.1, sellerCanPay, true) == done.0;
  }

  /** A first refund leaves the refund rows at zero exactly when both sides are charged, or neither, or nothing was done. */
  lemma RefundRowsBalanceIff(c: Core, sellerCanPay: bool, atomic: bool)
    requires Unbooked(c) && (!atomic ==> sellerCanPay)
    ensures var u := Finish(c, Begin(c, true), sellerCanPay, atomic);
      RefundSum(u) == 0 <==>
        || Amount(c) == 0
        || (atomic && c.parties.seller && !sellerCanPay)
        || (c.parties.seller == (c.parties.customer && (atomic || c.parties.known)))
  {
    if atomic {
      AtomicFinish(c, sellerCanPay);
      AtomicRows(c.(status := QcPassed), sellerCanPay);
      hide AtomicRefund;
    } else {
      LegacyFirstRefund(c);
    }
    hide Finish;
  }

  lemma AtomicRows(c: Core, sellerCanPay: bool)
    requires c.status == QcPassed && Unbooked(c)
    ensures var u := AtomicRefund(c, sellerCanPay);
      if ChargesSeller(c) && !sellerCanPay then u == c
      else
        && u.status == Refunded
        && RowAmount(u.rows, RefWallet) == (if RefundsCustomer(c) then Amount(c) else 0)
        && RowAmount(u.rows, RefSell) == (if ChargesSeller(c) then -(Amount(c) as int) else 0)
        && u.paid == (if PaysRider(c) then c.paid + [c.commission] else c.paid)
        && (RetDrop in u.rows <==> RetDrop in c.rows)
        && u.jobs == c.jobs && u.unbooked == c.unbooked
  {
  }

  // ---------------------------------------------------------------------------
  // The refund rows over runs
  // ---------------------------------------------------------------------------

  function Owing(c: Core, q: Inspection): nat {
    if c.parties.customer then q.amount else 0
  }

  /** The rows are level except between the customer's row and the seller's. */
  predicate LevelAt(c: Core, q: Inspection) {
    match q.stage
    case WalletRow => c.parties.customer && RefundSum(c) == 0
    case SellerRow => RefSell !in c.rows && RowAmount(c.rows, RefWallet) == Owing(c, q)
    case _ => RefundSum(c) == 0
  }

  ghost predicate RowsLevel(w: World) {
    && OneRefund(w)
    && (forall e :: 0 <= e < |w.inspections| && Passed(w.inspections[e]) ==> LevelAt(w.core, w.inspections[e]))
    && ((forall e :: 0 <= e < |w.inspections| ==> !Passed(w.inspections[e])) ==> RefundSum(w.core) == 0)
  }

  predicate BothSides(c: Core) {
    c.parties.known && c.parties.seller == c.parties.customer
  }

  lemma InspectionLevels(c: Core, q: Inspection, sellerCanPay: bool, atomic: bool)
    requires BothSides(c) && Passed(q) && Done(c, q.stage) && LevelAt(c, q)
    ensures LevelAt(InspectStep(c, q, sellerCanPay, atomic).0, InspectStep(c, q, sellerCanPay, atomic).1)
  {
    if atomic && q.stage == Crediting {
      if c.status == QcPassed { AtomicRows(c, sellerCanPay); }
      hide AtomicRefund;
    }
  }

  lemma StepKeepsLevel(w: World, ev: Event, atomic: bool)
    requires RowsLevel(w) && BothSides(w.core) && !Reopens(w, ev) && !Overlaps(w, ev)
    ensures RowsLevel(Apply(w, ev, atomic)) && Apply(w, ev, atomic).core.parties == w.core.parties
  {
    StepKeepsOneRefund(w, ev, atomic);
    hide OneRefund, Reopens, Overlaps;
    var u := Apply(w, ev, atomic);
    if ev.QcRead? {
      if w.core.status == Returned {
        assert forall e :: 0 <= e < |w.inspections| ==> u.inspections[e] == w.inspections[e];
        assert !Passed(u.inspections[|w.inspections|]);
      }
    } else if ev.QcStep? {
      if ev.e < |w.inspections| { InspectionKeepsLevel(w, ev, atomic); }
      hide RowsLevel, Apply;
    } else {
      OthersKeepRefund(w, ev, atomic);
      hide Apply;
    }
  }

  lemma InspectionKeepsLevel(w: World, ev: Event, atomic: bool)
    requires RowsLevel(w) && BothSides(w.core) && ev.QcStep? && ev.e < |w.inspections|
    requires OneRefund(Apply(w, ev, atomic))
    ensures RowsLevel(Apply(w, ev, atomic)) && Apply(w, ev, atomic).core.parties == w.core.parties
  {
    var e := ev.e;
    var q := w.inspections[e];
    var u := Apply(w, ev, atomic);
    if q.stage == Checked {
      assert !Closed(w.core.status);
      assert Unbooked(w.core) && Unbooked(u.core);
      assert forall f :: 0 <= f < |w.inspections| && f != e ==> u.inspections[f] == w.inspections[f] && !Passed(w.inspections[f]);
    } else if Passed(q) {
      InspectionLevels(w.core, q, ev.sellerCanPay, atomic);
      RefundStep(w.core, q, ev.sellerCanPay, atomic);
      hide InspectStep, LevelAt, Done;
      forall f | 0 <= f < |w.inspections| && f != e ensures !Passed(u.inspections[f]) {
        if f < e { assert !Passed(w.inspections[f]); }
      }
      assert Passed(u.inspections[e]);
    } else {
      assert q.stage == Over;
      OverStep(w, e, ev.sellerCanPay, atomic);
    }
  }

  lemma {:induction false} RunKeepsLevel(w: World, evs: seq<Event>, atomic: bool)
    requires RowsLevel(w) && BothSides(w.core) && Orderly(w, evs, atomic)
    ensures RowsLevel(Run(w, evs, atomic))
    decreases |evs|
  {
    if evs != [] {
      hide Apply, Reopens, Overlaps, OneRefund;
      StepKeepsLevel(w, evs[0], atomic);
      RunKeepsLevel(Apply(w, evs[0], atomic), evs[1..], atomic);
    }
  }

  /** With customer and seller, or neither, the refund rows sum to zero in every orderly run, whenever no inspection is between its two rows. */
  lemma RefundRowsBalance(w: World, evs: seq<Event>, atomic: bool)
    requires Untouched(w) && BothSides(w.core) && Orderly(w, evs, atomic)
    ensures var u := Run(w, evs, atomic);
      (forall e :: 0 <= e < |u.inspections| ==> u.inspections[e].stage != SellerRow) ==> RefundSum(u.core) == 0
  {
    RunKeepsLevel(w, evs, atomic);
    hide Run;
  }

  // ---------------------------------------------------------------------------
  // Runs that refund twice
  // ---------------------------------------------------------------------------

  /** The two inspections have both read the returned order and saved their verdict. */
  function BothSaved(c: Core): World {
    var q := Begin(c, true).(stage := Crediting);
    World(c.(status := QcPassed), [q, q], [])
  }

  lemma ReadStep(w: World)
    requires w.core.status == Returned
    ensures Apply(w, QcRead(true), false) == w.(inspections := w.inspections + [Begin(w.core, true)])
  {
  }

  lemma SaveStep(w: World, e: nat)
    requires e < |w.inspections| && w.inspections[e].stage == Checked && w.inspections[e].pass
    ensures Apply(w, QcStep(e, true), false)
         == w.(core := w.core.(status := QcPassed), inspections := w.inspections[e := w.inspections[e].(stage := Crediting)])
  {
  }

  lemma CreditStep(w: World, e: nat)
    requires e < |w.inspections| && w.inspections[e].stage == Crediting
    requires w.core.parties.customer && w.core.parties.known && w.inspections[e].amount > 0
    ensures Apply(w, QcStep(e, true), false)
         == w.(core := w.core.(credits := w.core.credits + [w.inspections[e].amount]),
               inspections := w.inspections[e := w.inspections[e].(stage := WalletRow)])
  {
  }

  lemma BothRead(c: Core)
    requires c.status == Returned
    ensures var evs := [QcRead(true), QcRead(true), QcStep(0, true), QcStep(1, true)];
      Run(World(c, [], []), evs, false) == BothSaved(c) && NeverReopens(World(c, [], []), evs, false)
  {
    var q := Begin(c, true);
    var saved := q.(stage := Crediting);
    var read, step0, step1 := QcRead(true), QcStep(0, true), QcStep(1, true);
    var w1, w2, w3 := World(c, [q], []), World(c, [q, q], []), World(c.(status := QcPassed), [saved, q], []);
    ReadStep(World(c, [], []));
    ReadStep(w1);
    SaveStep(w2, 0);
    SaveStep(w3, 1);
    assert !Reopens(World(c, [], []), read) && !Reopens(w1, read) && !Reopens(w2, step0) && !Reopens(w3, step1);
    hide Apply, Begin, Reopens;
    assert [] + [q] == [q] && [q] + [q] == [q, q] && [q, q][0 := saved] == [saved, q] && [saved, q][1 := saved] == [saved, saved];
    RunFour(World(c, [], []), read, read, step0, step1, false);
    NeverReopensFour(World(c, [], []), read, read, step0, step1, false);
  }

  lemma NeverReopensFour(w: World, a: Event, b: Event, c: Event, d: Event, atomic: bool)
    requires !Reopens(w, a) && !Reopens(Apply(w, a, atomic), b) && !Reopens(Apply(Apply(w, a, atomic), b, atomic), c)
    requires !Reopens(Apply(Apply(Apply(w, a, atomic), b, atomic), c, atomic), d)
    ensures NeverReopens(w, [a, b, c, d], atomic)
  {
    hide Apply, Reopens;
    var w1, w2 := Apply(w, a, atomic), Apply(Apply(w, a, atomic), b, atomic);
    assert [a, b, c, d][1..] == [b, c, d] && [b, c, d][1..] == [c, d] && [c, d][1..] == [d] && [d][1..] == [];
    assert NeverReopens(Apply(w2, c, atomic), [d], atomic);
    assert NeverReopens(w2, [c, d], atomic);
    assert NeverReopens(w1, [b, c, d], atomic);
  }

  /** Two inspections that read the returned order before either saved both credit the customer, with no return reopened (body without transaction). */
  lemma OverlappingInspectionsRefundTwice(c: Core)
    requires c.status == Returned && RefundsCustomer(c) && c.parties.known
    ensures var evs := [QcRead(true), QcRead(true), QcStep(0, true), QcStep(1, true)];
      && NeverReopens(World(c, [], []), evs, false)
      && Overlaps(World(c, [Begin(c, true)], []), QcRead(true))
      && Run(World(c, [], []), evs + [QcStep(0, true), QcStep(1, true)], false).core.credits == c.credits + [Amount(c), Amount(c)]
  {
    var evs := [QcRead(true), QcRead(true), QcStep(0, true), QcStep(1, true)];
    var both := BothSaved(c);
    assert World(c, [Begin(c, true)], []).inspections[0].stage == Checked;
    BothRead(c);
    CreditStep(both, 0);
    hide Run, Apply, NeverReopens;
    CreditStep(Apply(both, QcStep(0, true), false), 1);
    RunConcat(World(c, [], []), evs, [QcStep(0, true), QcStep(1, true)], false);
    RunTwo(both, QcStep(0, true), QcStep(1, true), false);
    assert c.credits + [Amount(c)] + [Amount(c)] == c.credits + [Amount(c), Amount(c)];
  }

  /** An administrator's status update on an order that is closed meanwhile, or was. */
  lemma UpdateReopens(c: Core)
    requires Closed(c.status)
    ensures var w := World(c, [], [Handling(Update(Returned), c, 0, Loaded)]);
      && Run(World(c, [], []), [Ask(Update(Returned)), Proceed(0)], false)
         == World(c.(status := Returned), [], [Handling(Update(Returned), c, 0, Ended)])
      && Apply(World(c, [], []), Ask(Update(Returned)), false) == w
      && Reopens(w, Proceed(0))
  {
    RunTwo(World(c, [], []), Ask(Update(Returned)), Proceed(0), false);
    hide Run;
    assert [] + [Handling(Update(Returned), c, 0, Loaded)] == [Handling(Update(Returned), c, 0, Loaded)];
  }

  /** After a refund a status update is enough to refund again: the wallet is credited before the row is refused. */
  lemma ReopenedRefundsAgain(c: Core)
    requires c.status == Refunded && RefundsCustomer(c) && c.parties.known
    ensures Run(World(c, [], []), [Ask(Update(Returned)), Proceed(0)] + [QcRead(true), QcStep(0, true)] + [QcStep(0, true)], false).core.credits
         == c.credits + [Amount(c)]
  {
    var back := c.(status := Returned);
    var w := World(back, [], [Handling(Update(Returned), c, 0, Ended)]);
    UpdateReopens(c);
    RunThen(World(c, [], []), [Ask(Update(Returned)), Proceed(0)], [QcRead(true), QcStep(0, true)], QcStep(0, true), false);
    RunTwo(w, QcRead(true), QcStep(0, true), false);
    ReadStep(w);
    hide Run, Apply, Reopens;
    assert [] + [Begin(back, true)] == [Begin(back, true)];
    var read := w.(inspections := [Begin(back, true)]);
    SaveStep(read, 0);
    CreditStep(Apply(read, QcStep(0, true), false), 0);
  }
}
