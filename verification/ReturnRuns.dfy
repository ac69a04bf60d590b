/**
 * Runs of a return in which requests that overlap pay the rider twice or reopen a closed return.
 */
module ReturnRuns {
  import opened Wrappers
  import opened ReturnModel
  import opened ReturnFlow
  import opened ReturnRefund
  import opened ReturnCommission
  import opened ReturnCodes

  /** A hand-over with the right code, of the order as it read it. */
  function HandOver(c: Core, at: Progress): Handling {
    Handling(VerifyDrop(true), c, if at == Loaded then 0 else c.drop.serial, at)
  }

  /** The order after that hand-over. */
  function Delivered(c: Core): Core {
    c.(drop := c.drop.(live := false), status := Returned, jobs := c.jobs + [Job(c.commission, c.flagPaid)])
  }

  predicate Deliverable(c: Core) {
    c.status == DropPending && c.drop.live && PaysRider(c) && c.jobs == [] && c.unbooked == [] && c.unflagged == 0
  }

  lemma AskStep(w: World, atomic: bool)
    requires w.core.rider.Some?
    ensures Apply(w, Ask(VerifyDrop(true)), atomic) == w.(handlings := w.handlings + [HandOver(w.core, Loaded)])
  {
  }

  lemma LookStep(w: World, h: nat, c: Core, atomic: bool)
    requires h < |w.handlings| && w.handlings[h] == HandOver(c, Loaded) && w.core.drop == c.drop && c.drop.live
    ensures Apply(w, Proceed(h), atomic) == w.(handlings := w.handlings[h := HandOver(c, Coded)])
  {
  }

  lemma UseStep(w: World, h: nat, c: Core, atomic: bool)
    requires h < |w.handlings| && w.handlings[h] == HandOver(c, Coded) && w.core.drop.serial == c.drop.serial
    ensures Apply(w, Proceed(h), atomic)
         == w.(core := w.core.(drop := w.core.drop.(live := false)), handlings := w.handlings[h := HandOver(c, Spent)])
  {
  }

  lemma SaveStep(w: World, h: nat, c: Core, atomic: bool)
    requires h < |w.handlings| && w.handlings[h] == HandOver(c, Spent) && c.status != Returned
    ensures Apply(w, Proceed(h), atomic)
         == w.(core := w.core.(status := Returned, jobs := w.core.jobs + [Job(c.commission, c.flagPaid)]),
               handlings := w.handlings[h := HandOver(c, Ended)])
  {
  }

  // ---------------------------------------------------------------------------
  // An inspection that overtakes the commission job
  // ---------------------------------------------------------------------------

  lemma OneHandOver(w: World, atomic: bool)
    requires Deliverable(w.core)
    ensures var n := |w.handlings|;
      Run(w, [Ask(VerifyDrop(true)), Proceed(n), Proceed(n), Proceed(n)], atomic)
      == w.(core := Delivered(w.core), handlings := w.handlings + [HandOver(w.core, Ended)])
  {
    var c, n, hs := w.core, |w.handlings|, w.handlings;
    var w1, w2 := w.(handlings := hs + [HandOver(c, Loaded)]), w.(handlings := hs + [HandOver(c, Coded)]);
    var w3 := w.(core := c.(drop := c.drop.(live := false)), handlings := hs + [HandOver(c, Spent)]);
    AskStep(w, atomic);
    LookStep(w1, n, c, atomic);
    UseStep(w2, n, c, atomic);
    SaveStep(w3, n, c, atomic);
    RunFour(w, Ask(VerifyDrop(true)), Proceed(n), Proceed(n), Proceed(n), atomic);
    hide Apply, Run;
    assert (hs + [HandOver(c, Loaded)])[n := HandOver(c, Coded)] == hs + [HandOver(c, Coded)];
    assert (hs + [HandOver(c, Coded)])[n := HandOver(c, Spent)] == hs + [HandOver(c, Spent)];
    assert (hs + [HandOver(c, Spent)])[n := HandOver(c, Ended)] == hs + [HandOver(c, Ended)];
  }

  lemma PaidAtInspection(w: World, atomic: bool)
    requires w.inspections == [Begin(w.core, true)] && PaysRider(w.core) && w.core.rows == map[] && w.core.paid == []
    ensures var u := Run(w, Steps(0, true, 7), atomic).core; u.paid == [w.core.commission] && u.jobs == w.core.jobs
  {
    var c := w.core;
    FinishIsARun(w, 0, true, atomic);
    LegacyFirstRefund(c);
    AtomicFinish(c, true);
    AtomicRows(c.(status := QcPassed), true);
    hide Finish, Steps, AtomicRefund, Run;
  }

  lemma JobPays(w: World, atomic: bool)
    requires w.core.jobs != [] && StillPays(w.core.jobs[0])
    ensures Apply(w, RunJob, atomic).core.paid == w.core.paid + [w.core.jobs[0].commission]
  {
  }

  lemma InspectionReads(w: World, atomic: bool)
    requires w.core.status == Returned && w.inspections == []
    ensures Run(w, [QcRead(true)], atomic) == w.(inspections := [Begin(w.core, true)])
  {
    RunOne(w, QcRead(true), atomic);
    hide Run;
  }

  /** An inspection that overtakes the commission job pays the commission twice, whichever body refunds. */
  lemma InspectionBeforeJobPaysTwice(c: Core, atomic: bool)
    requires Deliverable(c) && c.rows == map[] && c.paid == []
    ensures var evs := [Ask(VerifyDrop(true)), Proceed(0), Proceed(0), Proceed(0)] + [QcRead(true)] + Steps(0, true, 7) + [RunJob];
      Run(World(c, [], []), evs, atomic).core.paid == [c.commission, c.commission]
  {
    var start := [Ask(VerifyDrop(true)), Proceed(0), Proceed(0), Proceed(0)];
    var returned := World(Delivered(c), [], [HandOver(c, Ended)]);
    OneHandOver(World(c, [], []), atomic);
    assert [] + [HandOver(c, Ended)] == [HandOver(c, Ended)];
    InspectionReads(returned, atomic);
    var read := returned.(inspections := [Begin(Delivered(c), true)]);
    PaidAtInspection(read, atomic);
    var u := Run(read, Steps(0, true, 7), atomic);
    JobPays(u, atomic);
    RunConcat(World(c, [], []), start, [QcRead(true)], atomic);
    RunThen(World(c, [], []), start + [QcRead(true)], Steps(0, true, 7), RunJob, atomic);
    hide *;
    assert u.core.paid + [c.commission] == [c.commission, c.commission];
  }

  // ---------------------------------------------------------------------------
  // A code entered twice
  // ---------------------------------------------------------------------------

  /** Both requests have found the code unconsumed. */
  lemma BothPass(c: Core, atomic: bool)
    requires Deliverable(c) && c.drop.serial > 0
    ensures var evs := [Ask(VerifyDrop(true)), Ask(VerifyDrop(true)), Proceed(0), Proceed(1)];
      && Run(World(c, [], []), evs, atomic) == World(c, [], [HandOver(c, Coded), HandOver(c, Coded)])
      && Reuses(World(c, [], [HandOver(c, Coded), HandOver(c, Loaded)]), Proceed(1))
  {
    var w := World(c, [], []);
    var w1, w2 := w.(handlings := [HandOver(c, Loaded)]), w.(handlings := [HandOver(c, Loaded), HandOver(c, Loaded)]);
    var w3 := w.(handlings := [HandOver(c, Coded), HandOver(c, Loaded)]);
    AskStep(w, atomic);
    AskStep(w1, atomic);
    LookStep(w2, 0, c, atomic);
    LookStep(w3, 1, c, atomic);
    assert PassedWith(w3.handlings[0], c.drop.serial);
    RunFour(w, Ask(VerifyDrop(true)), Ask(VerifyDrop(true)), Proceed(0), Proceed(1), atomic);
    hide Apply, Run;
    assert [] + [HandOver(c, Loaded)] == [HandOver(c, Loaded)];
    assert [HandOver(c, Loaded)] + [HandOver(c, Loaded)] == w2.handlings;
  }

  /** The first is saved, and its job ends: the rider is credited, the row stored, the flag set. */
  function FirstPaid(c: Core): Core {
    Delivered(c).(jobs := [], paid := c.paid + [c.commission], rows := c.rows[RetDrop := c.commission], flagPaid := true)
  }

  lemma FirstIsSaved(c: Core, atomic: bool)
    requires Deliverable(c)
    ensures Run(World(c, [], [HandOver(c, Coded), HandOver(c, Coded)]), [Proceed(0), Proceed(0)], atomic)
         == World(Delivered(c), [], [HandOver(c, Ended), HandOver(c, Coded)])
  {
    var w := World(c, [], [HandOver(c, Coded), HandOver(c, Coded)]);
    var w1 := World(c.(drop := c.drop.(live := false)), [], [HandOver(c, Spent), HandOver(c, Coded)]);
    UseStep(w, 0, c, atomic);
    SaveStep(w1, 0, c, atomic);
    RunTwo(w, Proceed(0), Proceed(0), atomic);
    hide Apply, Run;
  }

  lemma FirstJobEnds(c: Core, hs: seq<Handling>, atomic: bool)
    requires Deliverable(c) && RetDrop !in c.rows
    ensures Run(World(Delivered(c), [], hs), [RunJob, BookJob] + [FlagJob], atomic) == World(FirstPaid(c), [], hs)
  {
    var w := World(Delivered(c), [], hs);
    RunTwo(w, RunJob, BookJob, atomic);
    RunConcat(w, [RunJob, BookJob], [FlagJob], atomic);
    RunOne(Run(w, [RunJob, BookJob], atomic), FlagJob, atomic);
    hide Run;
    var job := Job(c.commission, c.flagPaid);
    assert ([] + [job])[1..] == [];
  }

  /** The second is saved afterwards, with the flag it read at the start. */
  lemma SecondIsSaved(c: Core, atomic: bool)
    requires Deliverable(c)
    ensures Run(World(FirstPaid(c), [], [HandOver(c, Ended), HandOver(c, Coded)]), [Proceed(1), Proceed(1)], atomic)
         == World(FirstPaid(c).(jobs := [Job(c.commission, false)]), [], [HandOver(c, Ended), HandOver(c, Ended)])
  {
    var w := World(FirstPaid(c), [], [HandOver(c, Ended), HandOver(c, Coded)]);
    var w1 := w.(handlings := [HandOver(c, Ended), HandOver(c, Spent)]);
    UseStep(w, 1, c, atomic);
    SaveStep(w1, 1, c, atomic);
    RunTwo(w, Proceed(1), Proceed(1), atomic);
    hide Apply, Run;
  }

  const TAPS := [Ask(VerifyDrop(true)), Ask(VerifyDrop(true)), Proceed(0), Proceed(1)]
  const FIRST := [Proceed(0), Proceed(0)] + ([RunJob, BookJob] + [FlagJob])
  const SECOND := [Proceed(1), Proceed(1)]

  /**
   * A code tapped twice pays twice: nothing closed is reopened, and the first job has ended
   * before the second hand-over is saved.
   */
  lemma DoubleTapPaysTwice(c: Core, atomic: bool)
    requires Deliverable(c) && c.drop.serial > 0 && RetDrop !in c.rows
    ensures var evs := TAPS + FIRST + SECOND + [RunJob];
      && Run(World(c, [], []), evs, atomic).core.paid == c.paid + [c.commission, c.commission]
      && NeverReopens(World(c, [], []), evs, atomic)
  {
    var w := World(c, [], []);
    OpenRun(w, TAPS + FIRST + SECOND + [RunJob], atomic);
    TwiceHanded(c, atomic);
    var last := World(FirstPaid(c).(jobs := [Job(c.commission, false)]), [], [HandOver(c, Ended), HandOver(c, Ended)]);
    JobPays(last, atomic);
    RunConcat(w, TAPS + FIRST + SECOND, [RunJob], atomic);
    RunOne(last, RunJob, atomic);
    hide *;
    assert c.paid + [c.commission] + [c.commission] == c.paid + [c.commission, c.commission];
  }

  lemma TwiceHanded(c: Core, atomic: bool)
    requires Deliverable(c) && c.drop.serial > 0 && RetDrop !in c.rows
    ensures Run(World(c, [], []), TAPS + FIRST + SECOND, atomic)
         == World(FirstPaid(c).(jobs := [Job(c.commission, false)]), [], [HandOver(c, Ended), HandOver(c, Ended)])
  {
    var w := World(c, [], []);
    BothPass(c, atomic);
    FirstIsSaved(c, atomic);
    FirstJobEnds(c, [HandOver(c, Ended), HandOver(c, Coded)], atomic);
    SecondIsSaved(c, atomic);
    hide Apply, Run, Deliverable;
    RunConcat(w, TAPS, FIRST, atomic);
    RunConcat(World(c, [], [HandOver(c, Coded), HandOver(c, Coded)]), [Proceed(0), Proceed(0)], [RunJob, BookJob] + [FlagJob], atomic);
    RunConcat(w, TAPS + FIRST, SECOND, atomic);
  }

  /** While nobody inspects, an open return stays open. */
  lemma {:induction false} OpenRun(w: World, evs: seq<Event>, atomic: bool)
    requires !Closed(w.core.status) && forall i :: 0 <= i < |evs| ==> !evs[i].QcStep?
    ensures NeverReopens(w, evs, atomic)
    decreases |evs|
  {
    if evs != [] {
      assert !evs[0].QcStep?;
      OnlyInspectionsClose(w, evs[0], atomic);
      hide Apply;
      OpenRun(Apply(w, evs[0], atomic), evs[1..], atomic);
    }
  }

  // ---------------------------------------------------------------------------
  // A late write
  // ---------------------------------------------------------------------------

  /** The order when a new drop code was made for it. */
  function Renewed(c: Core): Core {
    c.(drop := NewCode(c.drop))
  }

  lemma CodeIsMade(c: Core, atomic: bool)
    requires Deliverable(c)
    ensures Run(World(c, [], []), [Ask(DropOtp), Proceed(0)] + [Proceed(0)], atomic)
         == World(Renewed(c), [], [Handling(DropOtp, c, 0, Spent)])
  {
    var w := World(c, [], []);
    RunTwo(w, Ask(DropOtp), Proceed(0), atomic);
    RunConcat(w, [Ask(DropOtp), Proceed(0)], [Proceed(0)], atomic);
    RunOne(Run(w, [Ask(DropOtp), Proceed(0)], atomic), Proceed(0), atomic);
    hide Run;
    assert [] + [Handling(DropOtp, c, 0, Loaded)] == [Handling(DropOtp, c, 0, Loaded)];
  }

  lemma InspectionPasses(w: World, atomic: bool)
    requires w.core.status == Returned && w.inspections == []
    ensures Run(w, [QcRead(true), QcStep(0, true)], atomic)
         == w.(core := w.core.(status := QcPassed), inspections := [Begin(w.core, true).(stage := Crediting)])
  {
    RunTwo(w, QcRead(true), QcStep(0, true), atomic);
    hide Run;
  }

  /**
   * The drop code is asked for and made; the goods are handed over with it and pass the
   * inspection; only then the first request writes return_drop_pending, and the return is open
   * again.
   */
  lemma LateDropOtpReopens(c: Core, atomic: bool)
    requires Deliverable(c)
    ensures var before := [Ask(DropOtp), Proceed(0)] + [Proceed(0)]
              + [Ask(VerifyDrop(true)), Proceed(1), Proceed(1), Proceed(1)] + [QcRead(true), QcStep(0, true)];
      var w := Run(World(c, [], []), before, atomic);
      && w.core.status == QcPassed
      && Reopens(w, Proceed(0))
      && Apply(w, Proceed(0), atomic).core.status == DropPending
  {
    var w0 := World(c, [], []);
    var made := [Ask(DropOtp), Proceed(0)] + [Proceed(0)];
    var handed := [Ask(VerifyDrop(true)), Proceed(1), Proceed(1), Proceed(1)];
    var w1 := World(Renewed(c), [], [Handling(DropOtp, c, 0, Spent)]);
    CodeIsMade(c, atomic);
    OneHandOver(w1, atomic);
    var w2 := w1.(core := Delivered(w1.core), handlings := w1.handlings + [HandOver(w1.core, Ended)]);
    InspectionPasses(w2, atomic);
    RunConcat(w0, made, handed, atomic);
    RunConcat(w0, made + handed, [QcRead(true), QcStep(0, true)], atomic);
    var w3 := Run(w2, [QcRead(true), QcStep(0, true)], atomic);
    assert w3.handlings[0] == Handling(DropOtp, c, 0, Spent);
    NextStatus(w3.core, w3.handlings[0]);
    hide Run, Begin, Delivered;
  }
}
