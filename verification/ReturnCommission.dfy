/**
 * The rider's commission for a return: what is paid or on its way, and how often.
 */
module ReturnCommission {
  import opened Wrappers
  import opened ReturnModel
  import opened ReturnFlow
  import opened ReturnRefund

  // ---------------------------------------------------------------------------
  // The commission
  // ---------------------------------------------------------------------------

  function Waiting(jobs: seq<Job>): nat {
    if jobs == [] then 0 else (if StillPays(jobs[0]) then 1 else 0) + Waiting(jobs[1..])
  }

  predicate MayPay(q: Inspection) {
    q.pays && if q.stage == Checked then q.pass else q.stage in {Crediting, WalletRow, SellerRow, Paying}
  }

  function Payers(qs: seq<Inspection>): nat {
    if qs == [] then 0 else (if MayPay(qs[0]) then 1 else 0) + Payers(qs[1..])
  }

  /**
   * Payments of the commission that are made or on their way. An inspection with the
   * transactional body decides only when it commits.
   */
  function Owed(w: World, atomic: bool): nat {
    |w.core.paid| + Waiting(w.core.jobs) + if atomic then 0 else Payers(w.inspections)
  }

  /** The call that saves a hand-over. */
  predicate Delivers(h: Handling) {
    h.request.VerifyDrop? && h.at == Spent
  }

  /** The step takes on a payment. */
  predicate TakesOn(w: World, ev: Event, atomic: bool) {
    match ev
    case Proceed(h) =>
      h < |w.handlings| && Delivers(w.handlings[h]) && w.handlings[h].read.commission > 0 && !w.handlings[h].read.flagPaid
    case QcRead(pass) => !atomic && pass && w.core.status == Returned && PaysRider(w.core)
    case QcStep(e, sellerCanPay) =>
      && atomic && e < |w.inspections| && w.inspections[e].stage == Crediting
      && Commits(w.core, sellerCanPay) && PaysRider(w.core)
    case _ => false
  }

  lemma {:induction false} WaitingAppends(jobs: seq<Job>, job: Job)
    ensures Waiting(jobs + [job]) == Waiting(jobs) + if StillPays(job) then 1 else 0
  {
    if jobs == [] {
      assert [] + [job] == [job] && [job][1..] == [];
    } else {
      WaitingAppends(jobs[1..], job);
      assert (jobs + [job])[1..] == jobs[1..] + [job];
    }
  }

  lemma {:induction false} PayersAppend(qs: seq<Inspection>, q: Inspection)
    ensures Payers(qs + [q]) == Payers(qs) + if MayPay(q) then 1 else 0
  {
    if qs == [] {
      assert [] + [q] == [q] && [q][1..] == [];
    } else {
      PayersAppend(qs[1..], q);
      assert (qs + [q])[1..] == qs[1..] + [q];
    }
  }

  lemma {:induction false} PayersChange(qs: seq<Inspection>, e: nat, q: Inspection)
    requires e < |qs|
    ensures Payers(qs[e := q]) == Payers(qs) - (if MayPay(qs[e]) then 1 else 0) + if MayPay(q) then 1 else 0
  {
    if e == 0 {
      assert qs[e := q][1..] == qs[1..];
    } else {
      PayersChange(qs[1..], e - 1, q);
      assert qs[e := q][1..] == qs[1..][e - 1 := q];
    }
  }

  lemma HandleOwes(c: Core, ev: Event)
    ensures var u := Handle(c, ev); |u.paid| + Waiting(u.jobs) == |c.paid| + Waiting(c.jobs)
  {
  }

  lemma NextOwes(c: Core, h: Handling)
    ensures var u := Next(c, h).0;
      && u.paid == c.paid
      && (if Delivers(h) then u.jobs == c.jobs + [Job(h.read.commission, h.read.flagPaid)] else u.jobs == c.jobs)
      && Waiting(u.jobs) == Waiting(c.jobs) + if Delivers(h) && h.read.commission > 0 && !h.read.flagPaid then 1 else 0
  {
    NextKeepsMoney(c, h);
    WaitingAppends(c.jobs, Job(h.read.commission, h.read.flagPaid));
  }

  lemma InspectionOwes(c: Core, q: Inspection, sellerCanPay: bool, atomic: bool)
    requires atomic ==> q.stage in {Checked, Crediting, Over}
    ensures var r := InspectStep(c, q, sellerCanPay, atomic);
      && r.0.jobs == c.jobs
      && (if atomic then |r.0.paid| == |c.paid| + (if q.stage == Crediting && Commits(c, sellerCanPay) && PaysRider(c) then 1 else 0)
          else |r.0.paid| + (if MayPay(r.1) then 1 else 0) <= |c.paid| + if MayPay(q) then 1 else 0)
  {
    hide Commits, RefundsCustomer, ChargesSeller, PaysRider, Amount;
  }

  lemma InspectOwes(w: World, ev: Event, atomic: bool)
    requires (atomic ==> AtomicStages(w)) && ev.QcStep? && ev.e < |w.inspections|
    ensures var after := Owed(Apply(w, ev, atomic), atomic);
      if TakesOn(w, ev, atomic) then after == Owed(w, atomic) + 1 else after <= Owed(w, atomic)
    ensures atomic ==> AtomicStages(Apply(w, ev, atomic))
  {
    InspectionOwes(w.core, w.inspections[ev.e], ev.sellerCanPay, atomic);
    AtomicStagesStay(w.core, w.inspections[ev.e], ev.sellerCanPay);
    hide InspectStep, Commits, PaysRider, MayPay;
    var r := InspectStep(w.core, w.inspections[ev.e], ev.sellerCanPay, atomic);
    PayersChange(w.inspections, ev.e, r.1);
  }

  lemma StepOwes(w: World, ev: Event, atomic: bool)
    requires atomic ==> AtomicStages(w)
    ensures var after := Owed(Apply(w, ev, atomic), atomic);
      if TakesOn(w, ev, atomic) then after == Owed(w, atomic) + 1 else after <= Owed(w, atomic)
    ensures atomic ==> AtomicStages(Apply(w, ev, atomic))
  {
    if ev.QcStep? {
      if ev.e < |w.inspections| { InspectOwes(w, ev, atomic); }
      hide InspectStep, Waiting, Payers;
    } else if ev.QcRead? {
      PayersAppend(w.inspections, Begin(w.core, ev.pass));
      hide Waiting, Payers, MayPay;
    } else if ev.Proceed? {
      if ev.h < |w.handlings| { NextOwes(w.core, w.handlings[ev.h]); }
      hide Next, Waiting, Payers;
    } else {
      HandleOwes(w.core, ev);
      hide Handle, PaysRider, Payers;
    }
  }

  lemma AtomicStagesStay(c: Core, q: Inspection, sellerCanPay: bool)
    ensures q.stage in {Checked, Crediting, Over} ==> InspectStep(c, q, sellerCanPay, true).1.stage in {Checked, Crediting, Over}
  {
    hide AtomicRefund;
  }

  /** At most one payment stays made or on its way exactly when the step does not take on another. */
  lemma OwedOnceIff(w: World, ev: Event, atomic: bool)
    requires Owed(w, atomic) <= 1 && (atomic ==> AtomicStages(w))
    ensures Owed(Apply(w, ev, atomic), atomic) <= 1 <==> !(TakesOn(w, ev, atomic) && Owed(w, atomic) == 1)
  {
    StepOwes(w, ev, atomic);
  }

  predicate TakesOnOnce(w: World, evs: seq<Event>, atomic: bool)
    decreases |evs|
  {
    evs != [] ==>
      !(TakesOn(w, evs[0], atomic) && Owed(w, atomic) == 1) && TakesOnOnce(Apply(w, evs[0], atomic), evs[1..], atomic)
  }

  lemma {:induction false} OwedStaysOnce(w: World, evs: seq<Event>, atomic: bool)
    requires Owed(w, atomic) <= 1 && (atomic ==> AtomicStages(w)) && TakesOnOnce(w, evs, atomic)
    ensures Owed(Run(w, evs, atomic), atomic) <= 1
    decreases |evs|
  {
    if evs != [] {
      OwedOnceIff(w, evs[0], atomic);
      StepOwes(w, evs[0], atomic);
      hide Apply, TakesOn, Owed;
      OwedStaysOnce(Apply(w, evs[0], atomic), evs[1..], atomic);
    }
  }

  /** In every run that never takes on a second payment, the commission is paid at most once, by either body. */
  lemma CommissionAtMostOnce(w: World, evs: seq<Event>, atomic: bool)
    requires Untouched(w) && TakesOnOnce(w, evs, atomic)
    ensures |Run(w, evs, atomic).core.paid| <= 1
  {
    OwedStaysOnce(w, evs, atomic);
    hide Run;
  }

  predicate HandsOver(w: World, ev: Event) {
    ev.Proceed? && ev.h < |w.handlings| && Delivers(w.handlings[ev.h])
  }

  /** No commission job is left of an earlier hand-over, and no inspection is being decided. */
  ghost predicate Settled(w: World) {
    w.core.jobs == [] && w.core.unbooked == [] && w.core.unflagged == 0 && Undecided(w) == {}
  }

  /**
   * Hand-overs and inspections follow each other: earlier work is settled when an inspection
   * reads the order and when a hand-over is saved; the hand-over finds the return open and the
   * flag as it read it.
   */
  ghost predicate Prompt(w: World, ev: Event) {
    && (ev.QcRead? ==> Settled(w))
    && (HandsOver(w, ev) ==>
          Settled(w) && !Closed(w.core.status) && w.handlings[ev.h].read.flagPaid == w.core.flagPaid)
  }

  ghost function Undecided(w: World): set<nat> {
    set e | 0 <= e < |w.inspections| && w.inspections[e].stage == Checked
  }

  ghost predicate AllPrompt(w: World, evs: seq<Event>, atomic: bool)
    decreases |evs|
  {
    evs != [] ==> Prompt(w, evs[0]) && AllPrompt(Apply(w, evs[0], atomic), evs[1..], atomic)
  }

  /** Whatever is owed is flagged, or the work that owes it is still going on. */
  ghost predicate Traced(w: World, atomic: bool) {
    && Owed(w, atomic) <= 1
    && (RetDrop in w.core.rows ==> w.core.flagPaid || w.core.unflagged > 0)
    && (atomic ==> AtomicStages(w))
    && (Owed(w, atomic) > 0 && !Closed(w.core.status) && Undecided(w) == {} ==>
          w.core.flagPaid || Waiting(w.core.jobs) > 0 || w.core.unbooked != [] || w.core.unflagged > 0)
    && (forall e :: 0 <= e < |w.inspections| && w.inspections[e].stage == Checked ==>
          && w.core.jobs == [] && w.core.unbooked == [] && w.core.unflagged == 0
          && (Owed(w, atomic) > 0 ==> w.core.flagPaid || (!atomic && MayPay(w.inspections[e]))))
    && (forall e :: 0 <= e < |w.inspections| && w.inspections[e].stage == Crediting && atomic ==>
          Owed(w, atomic) > 0 ==> w.core.flagPaid)
  }

  lemma PromptTakesOnOnce(w: World, ev: Event, atomic: bool)
    requires Traced(w, atomic) && OneRefund(w) && Prompt(w, ev) && !Reopens(w, ev)
    ensures !(TakesOn(w, ev, atomic) && Owed(w, atomic) == 1)
  {
    hide Owed, Commits;
  }

  lemma PromptHandles(w: World, ev: Event, atomic: bool)
    requires Traced(w, atomic) && OneRefund(w) && Prompt(w, ev) && !Reopens(w, ev) && !ev.QcRead? && !ev.QcStep?
    ensures Traced(Apply(w, ev, atomic), atomic)
  {
    var u := Apply(w, ev, atomic);
    PromptTakesOnOnce(w, ev, atomic);
    StepOwes(w, ev, atomic);
    OnlyInspectionsClose(w, ev, atomic);
    OthersKeepRefund(w, ev, atomic);
    if Closed(w.core.status) { ClosedStaysIff(w, ev, atomic); }
    FlagFollows(w, ev, atomic);
    assert Undecided(u) == Undecided(w);
    assert forall e :: 0 <= e < |w.inspections| && w.inspections[e].stage == Checked ==> e in Undecided(w);
    hide Apply, Owed, TakesOn, Reopens, OneRefund, MayPay;
  }

  /** Work on a commission goes on until the flag is set; only a hand-over adds any. */
  lemma FlagFollows(w: World, ev: Event, atomic: bool)
    requires !ev.QcRead? && !ev.QcStep?
    requires RetDrop in w.core.rows ==> w.core.flagPaid || w.core.unflagged > 0
    ensures var c, u := w.core, Apply(w, ev, atomic).core;
      && (c.flagPaid ==> u.flagPaid)
      && (RetDrop in u.rows ==> u.flagPaid || u.unflagged > 0)
      && (HandsOver(w, ev) || (c.jobs == [] ==> u.jobs == []))
      && (c.jobs == [] && c.unbooked == [] ==> u.unbooked == [])
      && (c.jobs == [] && c.unbooked == [] && c.unflagged == 0 ==> u.unflagged == 0)
      && (Waiting(c.jobs) > 0 || c.unbooked != [] || c.unflagged > 0 ==>
            u.flagPaid || Waiting(u.jobs) > 0 || u.unbooked != [] || u.unflagged > 0)
      && (HandsOver(w, ev) && TakesOn(w, ev, atomic) ==> Waiting(u.jobs) > 0)
  {
    if ev.Proceed? {
      if ev.h < |w.handlings| {
        NextOwes(w.core, w.handlings[ev.h]);
        NextKeepsMoney(w.core, w.handlings[ev.h]);
      }
      hide Next;
    }
  }

  lemma PromptReads(w: World, ev: Event, atomic: bool)
    requires Traced(w, atomic) && OneRefund(w) && Prompt(w, ev) && ev.QcRead?
    ensures Traced(Apply(w, ev, atomic), atomic)
  {
    PromptTakesOnOnce(w, ev, atomic);
    StepOwes(w, ev, atomic);
    if w.core.status == Returned {
      var u := Apply(w, ev, atomic);
      assert forall e :: 0 <= e < |w.inspections| && w.inspections[e].stage == Checked ==> e in Undecided(w);
      assert |w.inspections| in Undecided(u);
      PayersAppend(w.inspections, Begin(w.core, ev.pass));
      hide OneRefund, TakesOn;
    }
  }

  lemma PromptSaves(w: World, ev: Event, atomic: bool)
    requires Traced(w, atomic) && OneRefund(w) && ev.QcStep? && ev.e < |w.inspections| && w.inspections[ev.e].stage == Checked
    requires !(TakesOn(w, ev, atomic) && Owed(w, atomic) == 1)
    ensures Traced(Apply(w, ev, atomic), atomic)
  {
    var e := ev.e;
    var q := w.inspections[e];
    var u := Apply(w, ev, atomic);
    StepOwes(w, ev, atomic);
    CreditingIsFirst(w.core, q, ev.sellerCanPay, atomic);
    assert e in Undecided(w);
    forall f | 0 <= f < |w.inspections| && f != e ensures w.inspections[f].stage != Checked {
      if f < e { assert w.inspections[f].stage != Checked; }
    }
    InspectionOwes(w.core, q, ev.sellerCanPay, atomic);
    PayersChange(w.inspections, e, u.inspections[e]);
  }

  lemma PromptRefunds(w: World, ev: Event, atomic: bool)
    requires Traced(w, atomic) && OneRefund(w) && ev.QcStep? && ev.e < |w.inspections| && Passed(w.inspections[ev.e])
    requires !(TakesOn(w, ev, atomic) && Owed(w, atomic) == 1)
    ensures Traced(Apply(w, ev, atomic), atomic)
  {
    var e := ev.e;
    var q := w.inspections[e];
    StepOwes(w, ev, atomic);
    CreditingIsFirst(w.core, q, ev.sellerCanPay, atomic);
    RefundStep(w.core, q, ev.sellerCanPay, atomic);
    hide InspectStep;
    forall f | 0 <= f < |w.inspections| && f != e ensures w.inspections[f].stage == Checked || w.inspections[f].stage == Over {
      if f < e { assert !Passed(w.inspections[f]); }
    }
    assert Closed(w.core.status);
    assert forall f :: 0 <= f < |w.inspections| ==> w.inspections[f].stage != Checked;
    hide OneRefund, TakesOn, Owed, MayPay;
  }

  lemma PromptInspects(w: World, ev: Event, atomic: bool)
    requires Traced(w, atomic) && OneRefund(w) && Prompt(w, ev) && !Reopens(w, ev) && ev.QcStep? && ev.e < |w.inspections|
    ensures Traced(Apply(w, ev, atomic), atomic)
  {
    var q := w.inspections[ev.e];
    PromptTakesOnOnce(w, ev, atomic);
    if q.stage == Checked {
      PromptSaves(w, ev, atomic);
    } else if Passed(q) {
      PromptRefunds(w, ev, atomic);
    } else {
      assert q.stage == Over;
      OverStep(w, ev.e, ev.sellerCanPay, atomic);
    }
    hide Traced, Apply, TakesOn, Owed, Prompt, Reopens;
  }

  lemma CreditingIsFirst(c: Core, q: Inspection, sellerCanPay: bool, atomic: bool)
    ensures InspectStep(c, q, sellerCanPay, atomic).1.stage == Crediting ==> q.stage in {Checked, Crediting}
  {
    hide AtomicRefund;
  }

  lemma {:induction false} PromptRunTakesOnOnce(w: World, evs: seq<Event>, atomic: bool)
    requires Traced(w, atomic) && OneRefund(w) && AllPrompt(w, evs, atomic) && Orderly(w, evs, atomic)
    ensures TakesOnOnce(w, evs, atomic)
    decreases |evs|
  {
    if evs != [] {
      var ev := evs[0];
      PromptTakesOnOnce(w, ev, atomic);
      StepKeepsOneRefund(w, ev, atomic);
      hide Traced, OneRefund, Reopens, Overlaps, Prompt, TakesOn;
      if ev.QcRead? {
        PromptReads(w, ev, atomic);
      } else if !ev.QcStep? {
        PromptHandles(w, ev, atomic);
      } else if ev.e < |w.inspections| {
        PromptInspects(w, ev, atomic);
      }
      PromptRunTakesOnOnce(Apply(w, ev, atomic), evs[1..], atomic);
    }
  }

  /** While jobs are prompt and the run is orderly, the commission is paid at most once, by either body. */
  lemma PromptRunsPayOnce(w: World, evs: seq<Event>, atomic: bool)
    requires Untouched(w) && AllPrompt(w, evs, atomic) && Orderly(w, evs, atomic)
    ensures |Run(w, evs, atomic).core.paid| <= 1
  {
    hide Run, Orderly, AllPrompt;
    PromptRunTakesOnOnce(w, evs, atomic);
    CommissionAtMostOnce(w, evs, atomic);
  }

}
