/**
 * How often the customer of a return is refunded, and when a closed return is reopened.
 */
module ReturnFlow {
  import opened Wrappers
  import opened ReturnModel

  lemma WriteKeepsMoney(c: Core, h: Handling)
    ensures var u := Write(c, h);
      && u.parties == c.parties && u.credits == c.credits && u.rows == c.rows && u.paid == c.paid
      && u.flagPaid == c.flagPaid && u.unbooked == c.unbooked && u.unflagged == c.unflagged
  {
  }

  lemma NextKeepsMoney(c: Core, h: Handling)
    ensures var u := Next(c, h).0;
      && u.parties == c.parties && u.credits == c.credits && u.rows == c.rows && u.paid == c.paid
      && u.flagPaid == c.flagPaid && u.unbooked == c.unbooked && u.unflagged == c.unflagged
  {
    WriteKeepsMoney(c, h);
    hide Write;
  }

  /** Only inspections touch the refund: everything else leaves the credits and the rows of a refund alone. */
  lemma OthersKeepRefund(w: World, ev: Event, atomic: bool)
    requires !ev.QcRead? && !ev.QcStep?
    ensures var u := Apply(w, ev, atomic);
      && u.inspections == w.inspections && u.core.parties == w.core.parties && u.core.credits == w.core.credits
      && forall r :: r != RetDrop ==>
           (r in u.core.rows <==> r in w.core.rows) && (r in w.core.rows ==> u.core.rows[r] == w.core.rows[r])
  {
    if ev.Proceed? {
      if ev.h < |w.handlings| { NextKeepsMoney(w.core, w.handlings[ev.h]); }
      hide Next;
    }
  }

  // ---------------------------------------------------------------------------
  // Credits
  // ---------------------------------------------------------------------------

  /** The step credits the customer's wallet. */
  predicate Credits(w: World, ev: Event, atomic: bool) {
    ev.QcStep? && ev.e < |w.inspections| && w.inspections[ev.e].stage == Crediting &&
    if atomic then Commits(w.core, ev.sellerCanPay) && RefundsCustomer(w.core)
    else w.core.parties.customer && w.inspections[ev.e].amount > 0 && w.core.parties.known
  }

  /** A step leaves the customer credited at most once exactly when it does not credit after an earlier credit. */
  lemma CreditedOnceIff(w: World, ev: Event, atomic: bool)
    requires |w.core.credits| <= 1
    ensures |Apply(w, ev, atomic).core.credits| <= 1 <==> !(Credits(w, ev, atomic) && |w.core.credits| == 1)
  {
    if ev.QcStep? {
      if ev.e < |w.inspections| { CreditsCount(w, ev, atomic); }
    } else if !ev.QcRead? {
      OthersKeepRefund(w, ev, atomic);
    }
    hide Next, InspectStep, Handle;
  }

  lemma CreditsCount(w: World, ev: Event, atomic: bool)
    requires ev.QcStep? && ev.e < |w.inspections|
    ensures |Apply(w, ev, atomic).core.credits| == |w.core.credits| + if Credits(w, ev, atomic) then 1 else 0
  {
    hide Commits, RefundsCustomer, ChargesSeller, PaysRider, Amount;
  }

  predicate CreditsOnce(w: World, evs: seq<Event>, atomic: bool)
    decreases |evs|
  {
    evs != [] ==>
      !(Credits(w, evs[0], atomic) && |w.core.credits| == 1) && CreditsOnce(Apply(w, evs[0], atomic), evs[1..], atomic)
  }

  /** So over a run: at most one credit at the end exactly when no step credits a second time. */
  lemma {:induction false} RefundedOnceIff(w: World, evs: seq<Event>, atomic: bool)
    requires |w.core.credits| <= 1
    ensures |Run(w, evs, atomic).core.credits| <= 1 <==> CreditsOnce(w, evs, atomic)
    decreases |evs|
  {
    hide Apply, Credits;
    if evs != [] {
      CreditedOnceIff(w, evs[0], atomic);
      if |Apply(w, evs[0], atomic).core.credits| <= 1 {
        RefundedOnceIff(Apply(w, evs[0], atomic), evs[1..], atomic);
      } else {
        CreditsStay(Apply(w, evs[0], atomic), evs[1..], atomic);
      }
    }
  }

  lemma CreditsGrow(w: World, ev: Event, atomic: bool)
    ensures |Apply(w, ev, atomic).core.credits| >= |w.core.credits|
  {
    if ev.QcStep? {
      if ev.e < |w.inspections| { CreditsCount(w, ev, atomic); }
    } else if !ev.QcRead? {
      OthersKeepRefund(w, ev, atomic);
    }
    hide Next, InspectStep, Handle;
  }

  lemma {:induction false} CreditsStay(w: World, evs: seq<Event>, atomic: bool)
    ensures |Run(w, evs, atomic).core.credits| >= |w.core.credits|
    decreases |evs|
  {
    hide Apply;
    if evs != [] {
      CreditsGrow(w, evs[0], atomic);
      CreditsStay(Apply(w, evs[0], atomic), evs[1..], atomic);
    }
  }

  // ---------------------------------------------------------------------------
  // The transactional body
  // ---------------------------------------------------------------------------

  predicate CreditHasRow(c: Core) {
    |c.credits| == if RefWallet in c.rows then 1 else 0
  }

  lemma AtomicRefundHasRow(c: Core, sellerCanPay: bool)
    requires CreditHasRow(c)
    ensures CreditHasRow(AtomicRefund(c, sellerCanPay))
  {
  }

  /** Inspections under the transactional body never stand between a credit and its row. */
  predicate AtomicStages(w: World) {
    forall e :: 0 <= e < |w.inspections| ==> w.inspections[e].stage in {Checked, Crediting, Over}
  }

  lemma AtomicCreditHasRow(w: World, ev: Event)
    requires CreditHasRow(w.core) && AtomicStages(w)
    ensures CreditHasRow(Apply(w, ev, true).core) && AtomicStages(Apply(w, ev, true))
  {
    if ev.QcStep? {
      AtomicRefundHasRow(w.core, ev.sellerCanPay);
      hide AtomicRefund;
    } else if !ev.QcRead? {
      OthersKeepRefund(w, ev, true);
      hide Handle, Next;
    }
  }

  lemma {:induction false} AtomicRunKeepsRow(w: World, evs: seq<Event>)
    requires CreditHasRow(w.core) && AtomicStages(w)
    ensures CreditHasRow(Run(w, evs, true).core)
    decreases |evs|
  {
    hide Apply;
    if evs != [] {
      AtomicCreditHasRow(w, evs[0]);
      AtomicRunKeepsRow(Apply(w, evs[0], true), evs[1..]);
    }
  }

  /** The transactional body refunds at most once in every run, reopened or overlapping: its row is refused the second time. */
  lemma AtomicRefundsOnce(w: World, evs: seq<Event>)
    requires Untouched(w)
    ensures |Run(w, evs, true).core.credits| <= 1
  {
    AtomicRunKeepsRow(w, evs);
  }

  // ---------------------------------------------------------------------------
  // Reopening and overlapping
  // ---------------------------------------------------------------------------

  predicate Closed(s: Status) {
    s == QcPassed || s == Refunded
  }

  /** The next call of the request writes a status. */
  predicate WritesStatus(h: Handling) {
    && h.at != Ended && LastCall(h) && Target(h.request).Some?
    && (h.request.DropOtp? || Target(h.request).value != h.read.status)
  }

  /** What can take a return out of qc_passed or refund_completed. */
  predicate Reopens(w: World, ev: Event) {
    Closed(w.core.status) &&
    match ev
    case Proceed(h) => h < |w.handlings| && WritesStatus(w.handlings[h])
    case QcStep(e, _) => e < |w.inspections| && w.inspections[e].stage == Checked && !w.inspections[e].pass
    case _ => false
  }

  lemma NextStatus(c: Core, h: Handling)
    ensures WritesStatus(h) ==> !Closed(Target(h.request).value)
    ensures Next(c, h).0.status == if WritesStatus(h) then Target(h.request).value else c.status
  {
  }

  /** A closed return is reopened exactly by the write of a request that changes the status it read, or by an inspection that fails after another passed. */
  lemma ClosedStaysIff(w: World, ev: Event, atomic: bool)
    requires Closed(w.core.status)
    ensures Closed(Apply(w, ev, atomic).core.status) <==> !Reopens(w, ev)
  {
    if ev.QcStep? {
      if ev.e < |w.inspections| { InspectionCloses(w.core, w.inspections[ev.e], ev.sellerCanPay, atomic); }
      hide InspectStep;
    } else if ev.Proceed? {
      if ev.h < |w.handlings| { NextStatus(w.core, w.handlings[ev.h]); }
      hide Next, WritesStatus, Target;
    }
  }

  lemma InspectionCloses(c: Core, q: Inspection, sellerCanPay: bool, atomic: bool)
    requires Closed(c.status)
    ensures Closed(InspectStep(c, q, sellerCanPay, atomic).0.status) <==> !(q.stage == Checked && !q.pass)
  {
    hide Aborts, RefundsCustomer, ChargesSeller, PaysRider, Amount;
  }

  /** A second inspection reads the order while another has read it and not saved its verdict. */
  predicate Overlaps(w: World, ev: Event) {
    ev.QcRead? && exists e :: 0 <= e < |w.inspections| && w.inspections[e].stage == Checked
  }

  predicate Orderly(w: World, evs: seq<Event>, atomic: bool)
    decreases |evs|
  {
    evs != [] ==> !Reopens(w, evs[0]) && !Overlaps(w, evs[0]) && Orderly(Apply(w, evs[0], atomic), evs[1..], atomic)
  }

  predicate Passed(q: Inspection) {
    q.pass && q.stage != Checked
  }

  /** No money row of a first refund exists yet. */
  predicate Unbooked(c: Core) {
    RefWallet !in c.rows && RefSell !in c.rows && RetDel !in c.rows
  }

  /** What the one inspection that passed has done by its stage. */
  predicate Done(c: Core, stage: Stage) {
    match stage
    case Crediting => c.credits == [] && Unbooked(c)
    case WalletRow => Unbooked(c)
    case SellerRow => RefSell !in c.rows && RetDel !in c.rows
    case Paying => RetDel !in c.rows
    case RiderRow => RetDel !in c.rows
    case _ => true
  }

  /** At most one inspection is between its check and its save, at most one has passed, and only that one refunds. */
  ghost predicate OneRefund(w: World) {
    && |w.core.credits| <= 1
    && (forall e, f :: 0 <= e < f < |w.inspections| ==> !(w.inspections[e].stage == Checked && w.inspections[f].stage == Checked))
    && (forall e, f :: 0 <= e < f < |w.inspections| ==> !(Passed(w.inspections[e]) && Passed(w.inspections[f])))
    && (forall e :: 0 <= e < |w.inspections| ==>
          && (w.inspections[e].stage == Checked ==> !Closed(w.core.status))
          && (Passed(w.inspections[e]) ==> Closed(w.core.status) && Done(w.core, w.inspections[e].stage))
          && (!w.inspections[e].pass ==> w.inspections[e].stage in {Checked, Over}))
    && (!Closed(w.core.status) ==> w.core.credits == [] && Unbooked(w.core))
  }

  lemma OthersKeepOneRefund(w: World, ev: Event, atomic: bool)
    requires OneRefund(w) && !Reopens(w, ev) && !ev.QcRead? && !ev.QcStep?
    ensures OneRefund(Apply(w, ev, atomic))
  {
    var u := Apply(w, ev, atomic);
    if Closed(w.core.status) { ClosedStaysIff(w, ev, atomic); }
    OthersKeepRefund(w, ev, atomic);
    OnlyInspectionsClose(w, ev, atomic);
    hide Reopens, Apply;
    forall e | 0 <= e < |w.inspections| && Passed(w.inspections[e]) ensures Done(u.core, w.inspections[e].stage) {
      assert Done(w.core, w.inspections[e].stage);
    }
  }

  /** No request but an inspection closes a return: the statuses the others write are all open ones. */
  lemma OnlyInspectionsClose(w: World, ev: Event, atomic: bool)
    requires !ev.QcStep?
    ensures Closed(Apply(w, ev, atomic).core.status) ==> Closed(w.core.status)
  {
    if ev.Proceed? && ev.h < |w.handlings| { NextStatus(w.core, w.handlings[ev.h]); }
    hide Next;
  }

  lemma SaveKeepsOneRefund(w: World, ev: Event, atomic: bool)
    requires OneRefund(w) && ev.QcStep? && ev.e < |w.inspections| && w.inspections[ev.e].stage == Checked
    ensures OneRefund(Apply(w, ev, atomic))
  {
    var u := Apply(w, ev, atomic);
    var q := w.inspections[ev.e];
    assert !Closed(w.core.status);
    assert u.inspections == w.inspections[ev.e := q.(stage := if q.pass then Crediting else Over)];
    assert u.core == w.core.(status := if q.pass then QcPassed else QcFailed);
    hide Apply;
    forall f | 0 <= f < |w.inspections| ensures !Passed(w.inspections[f]) {}
  }

  lemma RefundStep(c: Core, q: Inspection, sellerCanPay: bool, atomic: bool)
    requires q.pass && q.stage != Checked && Closed(c.status) && Done(c, q.stage) && |c.credits| <= 1
    ensures var r := InspectStep(c, q, sellerCanPay, atomic);
      && r.1.pass && r.1.stage != Checked && Closed(r.0.status) && Done(r.0, r.1.stage) && |r.0.credits| <= 1
  {
    hide PaysRider, RefundsCustomer, ChargesSeller, Amount, Aborts;
  }

  lemma RefundKeepsOneRefund(w: World, ev: Event, atomic: bool)
    requires OneRefund(w) && ev.QcStep? && ev.e < |w.inspections| && w.inspections[ev.e].stage != Checked
    ensures OneRefund(Apply(w, ev, atomic))
  {
    var q := w.inspections[ev.e];
    if q.pass {
      assert Passed(q);
      RefundStep(w.core, q, ev.sellerCanPay, atomic);
      hide InspectStep, Done;
      var e := ev.e;
      var r := InspectStep(w.core, q, ev.sellerCanPay, atomic);
      assert Apply(w, ev, atomic) == w.(core := r.0, inspections := w.inspections[ev.e := r.1]);
      forall f | 0 <= f < |w.inspections| && f != ev.e ensures !Passed(w.inspections[f]) && w.inspections[f].stage != Checked {
        if f < e { assert !Passed(w.inspections[f]); }
      }
    } else {
      assert q.stage == Over;
      assert Apply(w, ev, atomic).inspections == w.inspections;
    }
  }

  lemma StepKeepsOneRefund(w: World, ev: Event, atomic: bool)
    requires OneRefund(w) && !Reopens(w, ev) && !Overlaps(w, ev)
    ensures OneRefund(Apply(w, ev, atomic))
  {
    if ev.QcRead? {
      assert forall e :: 0 <= e < |w.inspections| ==> w.inspections[e].stage != Checked;
    } else if ev.QcStep? && ev.e < |w.inspections| {
      if w.inspections[ev.e].stage == Checked { SaveKeepsOneRefund(w, ev, atomic); } else { RefundKeepsOneRefund(w, ev, atomic); }
    } else if !ev.QcStep? {
      OthersKeepOneRefund(w, ev, atomic);
    }
  }

  lemma {:induction false} RunKeepsOneRefund(w: World, evs: seq<Event>, atomic: bool)
    requires OneRefund(w) && Orderly(w, evs, atomic)
    ensures OneRefund(Run(w, evs, atomic))
    decreases |evs|
  {
    hide Apply, Reopens, Overlaps, OneRefund;
    if evs != [] {
      StepKeepsOneRefund(w, evs[0], atomic);
      RunKeepsOneRefund(Apply(w, evs[0], atomic), evs[1..], atomic);
    }
  }

  /** While a closed return is not reopened and inspections do not overlap, the customer is refunded at most once, by either body. */
  lemma RefundedAtMostOnce(w: World, evs: seq<Event>, atomic: bool)
    requires Untouched(w) && Orderly(w, evs, atomic)
    ensures |Run(w, evs, atomic).core.credits| <= 1
  {
    hide Run;
    RunKeepsOneRefund(w, evs, atomic);
  }

  predicate NeverReopens(w: World, evs: seq<Event>, atomic: bool)
    decreases |evs|
  {
    evs != [] ==> !Reopens(w, evs[0]) && NeverReopens(Apply(w, evs[0], atomic), evs[1..], atomic)
  }

}
