/**
 * The hand-over's one-time code: how often a code passes, hand-overs that come one at a time,
 * and runs of the return in which overlapping requests go wrong.
 */
module ReturnCodes {
  import opened Wrappers
  import opened ReturnModel
  import opened ReturnFlow
  import opened ReturnRefund
  import opened ReturnCommission

  // ---------------------------------------------------------------------------
  // Single use
  // ---------------------------------------------------------------------------

  /** The hand-over has passed with this code; 0 is no code. */
  predicate PassedWith(h: Handling, code: nat) {
    h.request.VerifyDrop? && h.code == code && code > 0
  }

  /** No code has let two hand-overs pass. */
  ghost predicate SingleUse(w: World) {
    forall i, j :: 0 <= i < j < |w.handlings| && w.handlings[i].request.VerifyDrop? && w.handlings[i].code > 0
      ==> !PassedWith(w.handlings[j], w.handlings[i].code)
  }

  /** The step lets a hand-over pass with a code another has passed with. */
  ghost predicate Reuses(w: World, ev: Event) {
    && ev.Proceed? && ev.h < |w.handlings| && w.handlings[ev.h].at == Loaded && w.handlings[ev.h].request.VerifyDrop?
    && Passes(w.core, w.handlings[ev.h])
    && exists j :: 0 <= j < |w.handlings| && j != ev.h && PassedWith(w.handlings[j], w.core.drop.serial)
  }

  /** Codes count from 1, and a request that has not looked at a code has none. */
  ghost predicate Counted(w: World) {
    && (w.core.drop.live ==> w.core.drop.serial > 0)
    && forall h :: 0 <= h < |w.handlings| && w.handlings[h].at == Loaded ==> w.handlings[h].code == 0
  }

  lemma NextCode(c: Core, h: Handling)
    ensures var r := Next(c, h);
      && r.1.request == h.request && r.1.read == h.read && r.1.at != Loaded
      && r.1.code == (if h.at == Loaded && Passes(c, h) then CodeOf(c, h.request) else h.code)
      && ((c.drop.live ==> c.drop.serial > 0) ==> (r.0.drop.live ==> r.0.drop.serial > 0))
  {
  }

  lemma OthersKeepCodes(w: World, ev: Event, atomic: bool)
    requires !ev.Ask? && !ev.Proceed?
    ensures Apply(w, ev, atomic).handlings == w.handlings && Apply(w, ev, atomic).core.drop == w.core.drop
  {
    if ev.QcStep? && ev.e < |w.inspections| { InspectionKeepsCodes(w.core, w.inspections[ev.e], ev.sellerCanPay, atomic); }
    hide InspectStep;
  }

  lemma InspectionKeepsCodes(c: Core, q: Inspection, sellerCanPay: bool, atomic: bool)
    ensures InspectStep(c, q, sellerCanPay, atomic).0.drop == c.drop
  {
    hide Commits, RefundsCustomer, ChargesSeller, PaysRider, Amount, Booked;
  }

  lemma CountedStays(w: World, ev: Event, atomic: bool)
    requires Counted(w)
    ensures Counted(Apply(w, ev, atomic))
  {
    if ev.Proceed? {
      if ev.h < |w.handlings| { NextCode(w.core, w.handlings[ev.h]); }
    } else if !ev.Ask? {
      OthersKeepCodes(w, ev, atomic);
    }
    hide Next, InspectStep, Handle, Passes;
  }

  /** Codes stay single-use exactly when the step does not reuse one: consumption is checked on what was read, not when it is written. */
  lemma SingleUseKeptIff(w: World, ev: Event, atomic: bool)
    requires Counted(w) && SingleUse(w)
    ensures SingleUse(Apply(w, ev, atomic)) <==> !Reuses(w, ev)
  {
    var u := Apply(w, ev, atomic);
    if ev.Proceed? {
      if ev.h < |w.handlings| {
        NextCode(w.core, w.handlings[ev.h]);
        hide Next, Passes;
        PassKeepsIff(w, u, ev.h);
      }
    } else if !ev.Ask? {
      OthersKeepCodes(w, ev, atomic);
    }
  }

  lemma PassKeepsIff(w: World, u: World, h: nat)
    requires Counted(w) && SingleUse(w) && h < |w.handlings|
    requires |u.handlings| == |w.handlings| && u.handlings == w.handlings[h := u.handlings[h]]
    requires u.handlings[h].request == w.handlings[h].request
    requires u.handlings[h].code ==
      if w.handlings[h].at == Loaded && Passes(w.core, w.handlings[h]) then CodeOf(w.core, w.handlings[h].request) else w.handlings[h].code
    ensures SingleUse(u) <==> !Reuses(w, Proceed(h))
  {
    if Reuses(w, Proceed(h)) {
      var j :| 0 <= j < |w.handlings| && j != h && PassedWith(w.handlings[j], w.core.drop.serial);
      assert u.handlings[j] == w.handlings[j];
      assert PassedWith(u.handlings[h], w.core.drop.serial);
    } else {
      forall i, j | 0 <= i < j < |u.handlings| && u.handlings[i].request.VerifyDrop? && u.handlings[i].code > 0
        ensures !PassedWith(u.handlings[j], u.handlings[i].code)
      {
        if i != h && j != h { assert !PassedWith(w.handlings[j], w.handlings[i].code); }
      }
    }
  }

  ghost predicate NeverReuses(w: World, evs: seq<Event>, atomic: bool)
    decreases |evs|
  {
    evs != [] ==> !Reuses(w, evs[0]) && NeverReuses(Apply(w, evs[0], atomic), evs[1..], atomic)
  }

  lemma {:induction false} UseStays(w: World, evs: seq<Event>, atomic: bool, i: nat, j: nat, code: nat)
    requires i < j < |w.handlings| && PassedWith(w.handlings[i], code) && PassedWith(w.handlings[j], code) && Counted(w)
    ensures !SingleUse(Run(w, evs, atomic))
    decreases |evs|
  {
    if evs != [] {
      var u := Apply(w, evs[0], atomic);
      CountedStays(w, evs[0], atomic);
      CodesStay(w, evs[0], atomic);
      hide Apply;
      UseStays(u, evs[1..], atomic, i, j, code);
    }
  }

  lemma CodesStay(w: World, ev: Event, atomic: bool)
    requires Counted(w)
    ensures var u := Apply(w, ev, atomic);
      |u.handlings| >= |w.handlings| &&
      forall h :: 0 <= h < |w.handlings| && w.handlings[h].code > 0 ==>
        u.handlings[h].code == w.handlings[h].code && u.handlings[h].request == w.handlings[h].request
  {
    if ev.Proceed? {
      if ev.h < |w.handlings| { NextCode(w.core, w.handlings[ev.h]); }
    } else if !ev.Ask? {
      OthersKeepCodes(w, ev, atomic);
    }
    hide Next, InspectStep, Handle, Passes;
  }

  /** Over a run: every code lets at most one hand-over pass exactly when no step reuses one. */
  lemma {:induction false} SingleUseIff(w: World, evs: seq<Event>, atomic: bool)
    requires Counted(w) && SingleUse(w)
    ensures SingleUse(Run(w, evs, atomic)) <==> NeverReuses(w, evs, atomic)
    decreases |evs|
  {
    if evs != [] {
      var u := Apply(w, evs[0], atomic);
      SingleUseKeptIff(w, evs[0], atomic);
      CountedStays(w, evs[0], atomic);
      hide Apply, Reuses, Counted;
      if SingleUse(u) {
        SingleUseIff(u, evs[1..], atomic);
      } else {
        var i, j :| 0 <= i < j < |u.handlings| && u.handlings[i].request.VerifyDrop? && u.handlings[i].code > 0
                    && PassedWith(u.handlings[j], u.handlings[i].code);
        UseStays(u, evs[1..], atomic, i, j, u.handlings[i].code);
      }
    }
  }

  // ---------------------------------------------------------------------------
  // One at a time
  // ---------------------------------------------------------------------------

  /** A hand-over that has read the order and is not answered yet. */
  predicate UnderWay(h: Handling) {
    h.request.VerifyDrop? && h.at != Ended
  }

  ghost predicate NoneUnderWay(w: World) {
    forall h :: 0 <= h < |w.handlings| ==> !UnderWay(w.handlings[h])
  }

  /** A hand-over or an inspection reads the order only when earlier hand-overs are answered and settled and no inspection is being decided. */
  ghost predicate Alone(w: World, ev: Event) {
    (ev.Ask? && ev.request.VerifyDrop?) || ev.QcRead? ==> Settled(w) && NoneUnderWay(w)
  }

  ghost predicate AllAlone(w: World, evs: seq<Event>, atomic: bool)
    decreases |evs|
  {
    evs != [] ==> Alone(w, evs[0]) && AllAlone(Apply(w, evs[0], atomic), evs[1..], atomic)
  }

  /** At most one hand-over is under way; meanwhile everything is settled, the flag is as it read it, and a code used up stays used up. */
  ghost predicate Quiet(w: World) {
    && Counted(w)
    && (forall i, j :: 0 <= i < j < |w.handlings| ==> !(UnderWay(w.handlings[i]) && UnderWay(w.handlings[j])))
    && (forall h :: 0 <= h < |w.handlings| && UnderWay(w.handlings[h]) ==>
          && Settled(w)
          && w.handlings[h].read.flagPaid == w.core.flagPaid
          && (Closed(w.core.status) ==> w.handlings[h].read.status != Returned))
    && (forall h :: 0 <= h < |w.handlings| && PassedWith(w.handlings[h], w.core.drop.serial) && w.core.drop.live ==>
          w.handlings[h].at == Coded)
    && (forall h :: 0 <= h < |w.handlings| && w.handlings[h].request.VerifyDrop? ==> w.handlings[h].code <= w.core.drop.serial)
  }

  lemma QuietNeverReuses(w: World, ev: Event)
    requires Quiet(w)
    ensures !Reuses(w, ev)
  {
  }

  /** The hand-over that is saved is the one that was asked alone. */
  lemma QuietIsPrompt(w: World, ev: Event)
    requires Quiet(w) && Alone(w, ev) && !Reopens(w, ev)
    ensures Prompt(w, ev)
  {
    if HandsOver(w, ev) { assert UnderWay(w.handlings[ev.h]); }
  }

  lemma SettledStays(w: World, ev: Event, atomic: bool)
    requires OneRefund(w) && Settled(w) && !HandsOver(w, ev) && !ev.QcRead?
    ensures var u := Apply(w, ev, atomic);
      Settled(u) && u.core.flagPaid == w.core.flagPaid && (Closed(u.core.status) ==> Closed(w.core.status))
  {
    var u := Apply(w, ev, atomic);
    if ev.QcStep? {
      if ev.e < |w.inspections| {
        assert ev.e !in Undecided(w);
        PastStays(w.core, w.inspections[ev.e], ev.sellerCanPay, atomic);
        hide InspectStep;
        assert forall f :: 0 <= f < |w.inspections| && f != ev.e ==> u.inspections[f] == w.inspections[f] && f !in Undecided(w);
      }
    } else {
      OthersKeepRefund(w, ev, atomic);
      OnlyInspectionsClose(w, ev, atomic);
      assert Undecided(u) == Undecided(w);
      if ev.Proceed? && ev.h < |w.handlings| {
        NextOwes(w.core, w.handlings[ev.h]);
        NextKeepsMoney(w.core, w.handlings[ev.h]);
        hide Next;
      }
    }
  }

  lemma PastStays(c: Core, q: Inspection, sellerCanPay: bool, atomic: bool)
    requires q.stage != Checked
    ensures var r := InspectStep(c, q, sellerCanPay, atomic);
      && r.1.stage != Checked && SameHandOver(c, r.0)
      && (Closed(r.0.status) ==> Closed(c.status) || q.stage == Closing)
  {
    hide Aborts, RefundsCustomer, ChargesSeller, PaysRider, Amount, Booked;
  }

  /** What one call does to the latest code: nothing, a new one, or it is used up. */
  lemma NextDrop(c: Core, h: Handling)
    ensures var r := Next(c, h);
      && (r.0.drop == c.drop || r.0.drop == NewCode(c.drop) || (h.request.VerifyDrop? && h.at == Coded && r.0.drop == Consumed(c.drop, h.code)))
      && (h.request.VerifyDrop? && h.at == Coded ==> r.0.drop == Consumed(c.drop, h.code))
      && (UnderWay(r.1) ==> UnderWay(h))
      && (h.request.VerifyDrop? && h.at == Loaded ==> r.1.at in {Coded, Ended} && (r.1.at == Coded <==> Passes(c, h)))
      && (h.request.VerifyDrop? && h.at == Coded ==> r.1.at == Spent)
      && (h.request.VerifyDrop? && h.at == Spent ==> r.1.at == Ended)
      && (h.at == Ended ==> r == (c, h))
  {
  }

  /** The codes after one call of a request. */
  ghost predicate CodesQuiet(c: Core, hs: seq<Handling>) {
    && (forall h :: 0 <= h < |hs| && PassedWith(hs[h], c.drop.serial) && c.drop.live ==> hs[h].at == Coded)
    && (forall h :: 0 <= h < |hs| && hs[h].request.VerifyDrop? ==> hs[h].code <= c.drop.serial)
  }

  lemma ProceedCodes(w: World, h: nat, atomic: bool)
    requires Quiet(w) && h < |w.handlings|
    ensures CodesQuiet(Apply(w, Proceed(h), atomic).core, Apply(w, Proceed(h), atomic).handlings)
  {
    var u := Apply(w, Proceed(h), atomic);
    NextDrop(w.core, w.handlings[h]);
    NextCode(w.core, w.handlings[h]);
    assert forall g :: 0 <= g < |w.handlings| && g != h ==> u.handlings[g] == w.handlings[g];
    hide Next;
    assert !Reuses(w, Proceed(h)) by { QuietNeverReuses(w, Proceed(h)); }
  }

  lemma ProceedQuiet(w: World, h: nat, atomic: bool)
    requires Quiet(w) && OneRefund(w) && h < |w.handlings|
    ensures Quiet(Apply(w, Proceed(h), atomic))
  {
    var u := Apply(w, Proceed(h), atomic);
    CountedStays(w, Proceed(h), atomic);
    ProceedCodes(w, h, atomic);
    NextDrop(w.core, w.handlings[h]);
    NextCode(w.core, w.handlings[h]);
    assert forall g :: 0 <= g < |w.handlings| && g != h ==> u.handlings[g] == w.handlings[g];
    if g :| 0 <= g < |u.handlings| && UnderWay(u.handlings[g]) {
      assert UnderWay(w.handlings[g]);
      SettledStays(w, Proceed(h), atomic);
    }
    hide Next, Apply, Settled, Counted, OneRefund, Closed;
  }

  lemma AskQuiet(w: World, r: Request, atomic: bool)
    requires Quiet(w) && Alone(w, Ask(r))
    ensures Quiet(Apply(w, Ask(r), atomic))
  {
    var u := Apply(w, Ask(r), atomic);
    assert Undecided(u) == Undecided(w);
    CountedStays(w, Ask(r), atomic);
    if Allowed(w.core, r) {
      assert forall g :: 0 <= g < |w.handlings| ==> u.handlings[g] == w.handlings[g];
      assert u.handlings[|w.handlings|] == Handling(r, w.core, 0, Loaded);
    }
    hide Allowed, Counted;
  }

  lemma OtherQuiet(w: World, ev: Event, atomic: bool)
    requires Quiet(w) && OneRefund(w) && Alone(w, ev) && !ev.Ask? && !ev.Proceed?
    ensures Quiet(Apply(w, ev, atomic))
  {
    var u := Apply(w, ev, atomic);
    CountedStays(w, ev, atomic);
    OthersKeepCodes(w, ev, atomic);
    if h :| 0 <= h < |w.handlings| && UnderWay(w.handlings[h]) { SettledStays(w, ev, atomic); }
    hide Apply, Settled, Counted, OneRefund, Closed;
  }

  lemma {:induction false} AloneIsOrderly(w: World, evs: seq<Event>, atomic: bool)
    requires Quiet(w) && OneRefund(w) && AllAlone(w, evs, atomic) && Orderly(w, evs, atomic)
    ensures AllPrompt(w, evs, atomic) && NeverReuses(w, evs, atomic)
    decreases |evs|
  {
    if evs != [] {
      var ev := evs[0];
      QuietNeverReuses(w, ev);
      QuietIsPrompt(w, ev);
      StepKeepsOneRefund(w, ev, atomic);
      if ev.Proceed? {
        if ev.h < |w.handlings| { ProceedQuiet(w, ev.h, atomic); }
      } else if ev.Ask? {
        AskQuiet(w, ev.request, atomic);
      } else {
        OtherQuiet(w, ev, atomic);
      }
      hide Quiet, OneRefund, Reopens, Overlaps, Prompt, Reuses, Alone;
      AloneIsOrderly(Apply(w, ev, atomic), evs[1..], atomic);
    }
  }

  /** When hand-overs and inspections come one at a time, every code passes at most once and the commission is paid at most once. */
  lemma OneAtATimePaysOnce(w: World, evs: seq<Event>, atomic: bool)
    requires Untouched(w) && AllAlone(w, evs, atomic) && Orderly(w, evs, atomic)
    ensures SingleUse(Run(w, evs, atomic)) && |Run(w, evs, atomic).core.paid| <= 1
  {
    AloneIsOrderly(w, evs, atomic);
    SingleUseIff(w, evs, atomic);
    PromptRunsPayOnce(w, evs, atomic);
    hide Run;
  }
}
