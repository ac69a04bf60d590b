/**
 * When a rider's balance and lease are safe, exactly, and schedules in which they are not.
 */
module RiderConditions {
  import opened Wrappers
  import opened RiderWithdrawal

  // ---------------------------------------------------------------------------
  // Exactly when
  // ---------------------------------------------------------------------------

  function NewReference(s: State, p: nat): Reference
    requires p < |s.requests|
  {
    if s.requests[p].key != "" then Keyed(s.requests[p].key) else Stamped(s.clock)
  }

  /** The next step of request p inserts its row. */
  predicate Inserts(s: State, p: nat) {
    && p < |s.requests| && s.requests[p].stage.Funded? && s.requests[p].bankValid
    && Find(s.rows, NewReference(s, p)).None?
  }

  /** The row inserted, or the decision taken, costs no more than there is. */
  predicate Affordable(s: State, e: Event) {
    match e
    case Step(p) => Inserts(s, p) ==> Abs(s.requests[p].amount) <= Net(s.rows)
    case Decide(i, status) =>
      i < |s.rows| && status != Pending ==> Effect(s.rows[i]) - Effect(s.rows[i].(status := status)) <= Net(s.rows)
    case _ => true
  }

  lemma StepBalance(s: State, p: nat)
    requires p < |s.requests|
    ensures Net(Advance(s, p).rows) == Net(s.rows) - if Inserts(s, p) then Abs(s.requests[p].amount) else 0
  {
    if Inserts(s, p) { NetAppend(s.rows, Tx(Withdrawal, Pending, -Abs(s.requests[p].amount), NewReference(s, p))); }
    hide Net, Find;
  }

  lemma OtherBalance(s: State, e: Event)
    requires !e.Step?
    ensures Net(Apply(s, e).rows) >= Net(s.rows) || e.Decide?
    ensures e.Decide? && e.row < |s.rows| && e.status != Pending ==>
              Net(Apply(s, e).rows) == Net(s.rows) - Effect(s.rows[e.row]) + Effect(s.rows[e.row].(status := e.status))
    ensures e.Decide? && (e.row >= |s.rows| || e.status == Pending) ==> Apply(s, e) == s
  {
    if e.Earn? { NetAppend(s.rows, Tx(e.kind, Settled, e.earning, e.reference)); }
    if e.Decide? && e.row < |s.rows| { NetUpdate(s.rows, e.row, s.rows[e.row].(status := e.status)); }
    hide Net, Find;
  }

  /** From any state with no overdraft, a step keeps it so exactly when it is affordable. */
  lemma BalanceKeptIff(s: State, e: Event)
    requires Net(s.rows) >= 0
    ensures Net(Apply(s, e).rows) >= 0 <==> Affordable(s, e)
  {
    if e.Step? {
      if e.p < |s.requests| { StepBalance(s, e.p); }
      hide Advance, Net, Inserts;
    } else {
      OtherBalance(s, e);
      hide Net, Apply;
    }
  }

  predicate AllAffordable(s: State, es: seq<Event>)
    decreases |es|
  {
    es != [] ==> Affordable(s, es[0]) && AllAffordable(Apply(s, es[0]), es[1..])
  }

  /** No overdraft at the end of any part of the run. */
  predicate Solvent(s: State, es: seq<Event>)
    decreases |es|
  {
    Net(s.rows) >= 0 && (es != [] ==> Solvent(Apply(s, es[0]), es[1..]))
  }

  /** A run is never overdrawn exactly when each of its steps is affordable. */
  lemma {:induction false} SolventIff(s: State, es: seq<Event>)
    requires Net(s.rows) >= 0
    ensures Solvent(s, es) <==> AllAffordable(s, es)
    decreases |es|
  {
    hide Apply, Net, Affordable;
    if es != [] {
      BalanceKeptIff(s, es[0]);
      if Net(Apply(s, es[0]).rows) >= 0 { SolventIff(Apply(s, es[0]), es[1..]); }
    }
  }

  /** The timing and the administrator's care that the main results ask for are one way to be affordable. */
  lemma {:induction false} AdmissibleIsAffordable(s: State, es: seq<Event>)
    requires Inv(s) && Admissible(s, es)
    ensures AllAffordable(s, es)
    decreases |es|
  {
    if es != [] {
      ApplyKeeps(s, es[0]);
      hide Apply, Net, Affordable, InTime, NoRevival;
      assert Net(s.rows) >= 0 && Net(Apply(s, es[0]).rows) >= 0;
      BalanceKeptIff(s, es[0]);
      AdmissibleIsAffordable(Apply(s, es[0]), es[1..]);
    }
  }

  /** The lock is some request's lease. */
  ghost predicate LockOwned(s: State) {
    s.lockedUntil.Some? ==>
      exists q :: 0 <= q < |s.requests| && s.requests[q].stage.InLease() && s.requests[q].stage.until == s.lockedUntil.value
  }

  /** At most one request is inside an unexpired lease, and it holds the lock. */
  ghost predicate Guarded(s: State) {
    Exclusive(s) && LockHeld(s) && TimesPast(s) && LockOwned(s)
  }

  /** The step gives back a lease that is not its own and has not expired. */
  predicate ClearsAnothers(s: State, e: Event) {
    && e.Step? && e.p < |s.requests| && s.requests[e.p].stage.Leaving?
    && s.lockedUntil.Some? && s.clock <= s.lockedUntil.value && s.lockedUntil.value != s.requests[e.p].stage.until
  }

  /** A release frees another request's unexpired lease exactly when the lock holds an unexpired value that is not its own. */
  lemma ReleaseFreesAnotherIff(s: State, p: nat)
    requires Guarded(s) && p < |s.requests| && s.requests[p].stage.Leaving?
    ensures (exists q :: q != p && Active(s, q)) <==> ClearsAnothers(s, Step(p))
  {
    if ClearsAnothers(s, Step(p)) {
      var q :| 0 <= q < |s.requests| && s.requests[q].stage.InLease() && s.requests[q].stage.until == s.lockedUntil.value;
      assert Active(s, q);
    }
    forall q | q != p && Active(s, q) ensures ClearsAnothers(s, Step(p)) {
      assert s.lockedUntil == Some(s.requests[q].stage.until);
      assert !Active(s, p);
    }
  }

  lemma StageKeepsGuard(s: State, t: State, p: nat, stage: Stage)
    requires Guarded(s) && p < |s.requests| && t == SetStage(s.(rows := t.rows), p, stage)
    requires stage.InLease() <==> s.requests[p].stage.InLease()
    requires stage.InLease() ==> stage.until == s.requests[p].stage.until
    requires stage.Timed? ==> stage.now <= s.clock
    ensures Guarded(t)
  {
    assert forall q :: Active(t, q) <==> Active(s, q);
    if s.lockedUntil.Some? {
      var q :| 0 <= q < |s.requests| && s.requests[q].stage.InLease() && s.requests[q].stage.until == s.lockedUntil.value;
      assert t.requests[q].stage.InLease() && t.requests[q].stage.until == s.lockedUntil.value;
    }
  }

  lemma ReleaseKeepsGuardIff(s: State, p: nat)
    requires Guarded(s) && p < |s.requests| && s.requests[p].stage.Leaving?
    ensures Guarded(Advance(s, p)) <==> !ClearsAnothers(s, Step(p))
  {
    ReleaseFreesAnotherIff(s, p);
    var t := Advance(s, p);
    forall q ensures Active(t, q) <==> q != p && Active(s, q) {}
    if q :| q != p && Active(s, q) { assert Active(t, q) && t.lockedUntil == None; }
  }

  lemma AcquireKeepsGuard(s: State, p: nat)
    requires Guarded(s) && p < |s.requests| && s.requests[p].stage.Timed?
    ensures Guarded(Advance(s, p))
  {
    var t := Advance(s, p);
    var now := s.requests[p].stage.now;
    if s.lockedUntil.None? || s.lockedUntil.value < now {
      forall q | Active(t, q) ensures q == p {
        if q != p { assert Active(s, q); }
      }
      assert t.requests[p].stage.InLease() && t.requests[p].stage.until == t.lockedUntil.value;
    } else {
      StageKeepsGuard(s, t, p, Done(Busy));
    }
  }

  /** A step keeps the lease exclusive and held exactly when it does not clear another's unexpired lease. */
  lemma GuardedKeptIff(s: State, e: Event)
    requires Guarded(s)
    ensures Guarded(Apply(s, e)) <==> !ClearsAnothers(s, e)
  {
    hide Net, Find;
    match e
    case Step(p) =>
      if p < |s.requests| {
        if s.requests[p].stage.Leaving? {
          ReleaseKeepsGuardIff(s, p);
        } else if s.requests[p].stage.Timed? {
          AcquireKeepsGuard(s, p);
        } else {
          AdvanceInPlace(s, p);
        }
      }
    case Crash(p) => if p < |s.requests| { StageKeepsGuard(s, Throw(s, p), p, Throw(s, p).requests[p].stage); }
    case _ => OthersKeepGuard(s, e);
  }

  lemma AdvanceInPlace(s: State, p: nat)
    requires Guarded(s) && p < |s.requests| && !s.requests[p].stage.Leaving? && !s.requests[p].stage.Timed?
    ensures Guarded(Advance(s, p))
  {
    hide Net, Find;
    var t := Advance(s, p);
    StageKeepsGuard(s, t, p, t.requests[p].stage);
  }

  lemma OthersKeepGuard(s: State, e: Event)
    requires Guarded(s) && !e.Step? && !e.Crash?
    ensures Guarded(Apply(s, e))
  {
    hide Net, Find;
    var t := Apply(s, e);
    assert forall q :: 0 <= q < |s.requests| ==> t.requests[q] == s.requests[q];
    assert forall q :: Active(t, q) ==> Active(s, q);
    if s.lockedUntil.Some? {
      var q :| 0 <= q < |s.requests| && s.requests[q].stage.InLease() && s.requests[q].stage.until == s.lockedUntil.value;
      assert t.requests[q].stage.InLease() && t.requests[q].stage.until == s.lockedUntil.value;
    }
  }

  predicate OwnReleases(s: State, es: seq<Event>)
    decreases |es|
  {
    es != [] ==> !ClearsAnothers(s, es[0]) && OwnReleases(Apply(s, es[0]), es[1..])
  }

  ghost predicate GuardedThroughout(s: State, es: seq<Event>)
    decreases |es|
  {
    Guarded(s) && (es != [] ==> GuardedThroughout(Apply(s, es[0]), es[1..]))
  }

  /** The lease stays exclusive and held throughout a run exactly when no release in it clears another's unexpired lease. */
  lemma {:induction false} ExclusiveIff(s: State, es: seq<Event>)
    requires Guarded(s)
    ensures GuardedThroughout(s, es) <==> OwnReleases(s, es)
    decreases |es|
  {
    hide Apply, ClearsAnothers, Guarded;
    if es != [] {
      GuardedKeptIff(s, es[0]);
      if Guarded(Apply(s, es[0])) { ExclusiveIff(Apply(s, es[0]), es[1..]); }
    }
  }

  /** A holder that leaves in time clears only its own lease. */
  lemma InTimeReleasesOwn(s: State, e: Event)
    requires Guarded(s) && InTime(s, e)
    ensures !ClearsAnothers(s, e)
  {
    if e.Step? && e.p < |s.requests| && s.requests[e.p].stage.Leaving? { assert Active(s, e.p); }
  }

  // ---------------------------------------------------------------------------
  // Each hypothesis is needed
  // ---------------------------------------------------------------------------

  /** The four steps from the first lookup to the second, for a request without a key while the lease is free. */
  lemma FreeSteps(s: State, p: nat)
    requires p < |s.requests| && s.requests[p].key == "" && s.requests[p].riderKnown
    ensures s.requests[p].stage == Arrived ==> Advance(s, p) == SetStage(s, p, Checked)
    ensures s.requests[p].stage == Checked ==> Advance(s, p) == SetStage(s, p, Timed(s.clock))
    ensures s.requests[p].stage.Timed? && (s.lockedUntil.None? || s.lockedUntil.value < s.requests[p].stage.now)
            ==> var until := s.requests[p].stage.now + LEASE_MS;
                Advance(s, p) == SetStage(s.(lockedUntil := Some(until)), p, Holding(until))
    ensures s.requests[p].stage.Holding? ==> Advance(s, p) == SetStage(s, p, Rechecked(s.requests[p].stage.until))
    ensures s.requests[p].stage.Rechecked? && 0 < s.requests[p].amount <= Net(s.rows)
            ==> Advance(s, p) == SetStage(s, p, Funded(s.requests[p].stage.until))
  {
  }

  lemma SetTwice(s: State, p: nat, a: Stage, b: Stage)
    requires p < |s.requests|
    ensures SetStage(SetStage(s, p, a), p, b) == SetStage(s, p, b)
  {
  }

  lemma TakeLease(s: State, p: nat)
    requires p < |s.requests| && s.requests[p].stage == Arrived && s.requests[p].key == "" && s.requests[p].riderKnown
    requires LeaseFree(s)
    ensures var until := s.clock + LEASE_MS;
            Run(s, Steps(p, 5)) == Run(SetStage(s.(lockedUntil := Some(until)), p, Holding(until)), Steps(p, 2))
  {
    hide Run, Advance;
    var until := s.clock + LEASE_MS;
    var t := s.(lockedUntil := Some(until));
    var s1, s2 := SetStage(s, p, Checked), SetStage(s, p, Timed(s.clock));
    FreeSteps(s, p); StepsAdvance(s, p, 5);
    FreeSteps(s1, p); SetTwice(s, p, Checked, Timed(s.clock)); StepsAdvance(s1, p, 4);
    FreeSteps(s2, p); SetTwice(t, p, Timed(s.clock), Holding(until)); StepsAdvance(s2, p, 3);
  }

  lemma PassChecks(s: State, p: nat)
    requires p < |s.requests| && s.requests[p].stage.Holding? && s.requests[p].key == "" && s.requests[p].riderKnown
    requires 0 < s.requests[p].amount <= Net(s.rows)
    ensures Run(s, Steps(p, 2)) == SetStage(s, p, Funded(s.requests[p].stage.until))
  {
    hide Run, Net, Advance;
    var until := s.requests[p].stage.until;
    var s1 := SetStage(s, p, Rechecked(until));
    FreeSteps(s, p); StepsAdvance(s, p, 2);
    FreeSteps(s1, p); SetTwice(s, p, Rechecked(until), Funded(until)); StepsAdvance(s1, p, 1);
    RunNone(SetStage(s, p, Funded(until)));
    assert Steps(p, 0) == [];
  }

  /** First lookup, clock read, lease, second lookup and balance check of one undisturbed request. */
  lemma Prepare(s: State, p: nat)
    requires p < |s.requests| && s.requests[p].stage == Arrived && s.requests[p].key == "" && s.requests[p].riderKnown
    requires LeaseFree(s)
    requires 0 < s.requests[p].amount <= Net(s.rows)
    ensures Run(s, Steps(p, 5)) == SetStage(s.(lockedUntil := Some(s.clock + LEASE_MS)), p, Funded(s.clock + LEASE_MS))
  {
    hide Run, Net, Advance;
    var until := s.clock + LEASE_MS;
    var t := s.(lockedUntil := Some(until));
    TakeLease(s, p);
    PassChecks(SetStage(t, p, Holding(until)), p);
    SetTwice(t, p, Holding(until), Funded(until));
  }

  /** Two keyless requests for the whole balance. */
  function TwoRequests(amount: nat, clock: nat, lockedUntil: Option<nat>, first: Stage, second: Stage): State {
    State(clock, lockedUntil, [Tx(DeliveryEarning, Settled, amount, Foreign(0))],
          [Request(amount, "", true, true, first), Request(amount, "", true, true, second)])
  }

  /** The first holder passes the balance check and then sleeps past its lease. */
  lemma FirstHolderSleeps(amount: nat) returns (s0: State, es: seq<Event>)
    requires amount > 0
    ensures Start(s0) && Net(s0.rows) == amount
    ensures Run(s0, es) == TwoRequests(amount, 15001, Some(15000), Funded(15000), Arrived)
  {
    s0 := State(0, None, [Tx(DeliveryEarning, Settled, amount, Foreign(0))], []);
    assert Net(s0.rows) == amount;
    hide Run, Advance, Net;
    var arrive := Arrive(amount, "", true, true);
    var s1 := TwoRequests(amount, 0, None, Arrived, Arrived);
    var s2 := TwoRequests(amount, 0, Some(15000), Funded(15000), Arrived);
    assert Run(s0, [arrive, arrive]) == s1 by { RunTwo(s0, arrive, arrive); }
    assert Run(s1, Steps(0, 5)) == s2 by { Prepare(s1, 0); }
    es := RunThen(s0, [arrive, arrive], s1, Steps(0, 5), s2);
    RunOne(s2, Tick(15001));
    es := RunThen(s0, es, s2, [Tick(15001)], TwoRequests(amount, 15001, Some(15000), Funded(15000), Arrived));
  }

  /** Then a second holder passes the balance check as well. */
  lemma BothFunded(amount: nat) returns (s0: State, es: seq<Event>)
    requires amount > 0
    ensures Start(s0) && Net(s0.rows) == amount
    ensures Run(s0, es) == TwoRequests(amount, 15001, Some(30001), Funded(15000), Funded(30001))
  {
    var prefix;
    s0, prefix := FirstHolderSleeps(amount);
    var s3 := TwoRequests(amount, 15001, Some(15000), Funded(15000), Arrived);
    assert Net(s3.rows) == amount;
    hide Run, Advance, Net;
    Prepare(s3, 1);
    es := RunThen(s0, prefix, s3, Steps(1, 5), TwoRequests(amount, 15001, Some(30001), Funded(15000), Funded(30001)));
  }

  /** Without the timing hypothesis both holders insert and the balance is overdrawn, whatever the amount. */
  lemma LateHolderOverdraws(amount: nat) returns (s0: State, es: seq<Event>)
    requires amount > 0
    ensures Start(s0) && Net(s0.rows) == amount
    ensures Net(Run(s0, es).rows) == -(amount as int)
  {
    s0, es := BothFunded(amount);
    var s := Run(s0, es);
    assert Net(s.rows) == amount;
    hide Run, Advance, Net;
    InsertStep(s, 0);
    var t := Advance(s, 0).(clock := 15002);
    RunTwo(s, Step(0), Tick(15002));
    InsertStep(t, 1);
    RunOne(t, Step(1));
    es := RunThen(s0, es, s, [Step(0), Tick(15002)], t);
    es := RunThen(s0, es, t, [Step(1)], Advance(t, 1));
  }

  /**
   * The release is unconditional, so one late holder harms others: when it leaves, it clears the
   * lease of a request that is still in time, and a third request takes the lease beside it.
   */
  lemma LateReleaseFreesAnothersLease(amount: nat) returns (s0: State, es: seq<Event>)
    requires amount > 0
    ensures Start(s0)
    ensures var s := Run(s0, es); Active(s, 1) && Active(s, 2)
  {
    s0, es := BothFunded(amount);
    var s := Run(s0, es);
    assert Net(s.rows) == amount;
    var arrive := Arrive(amount, "", true, true);
    var t := s.(requests := s.requests[0 := s.requests[0].(stage := Leaving(15000, ServerError))]);
    var u := SetStage(t.(lockedUntil := None), 0, Done(ServerError));
    assert Apply(s, Crash(0)) == t;
    assert Apply(t, Step(0)) == u;
    var v := Apply(u, arrive);
    hide Run, Advance, Net, Apply;
    RunTwo(s, Crash(0), Step(0));
    RunOne(u, arrive);
    Prepare(v, 2);
    es := RunThen(s0, es, s, [Crash(0), Step(0)], u);
    es := RunThen(s0, es, u, [arrive], v);
    es := RunThen(s0, es, v, Steps(2, 5), SetStage(v.(lockedUntil := Some(30001)), 2, Funded(30001)));
  }

  /** Reviving a failed withdrawal after its money was requested again also overdraws. */
  lemma RevivalOverdraws(amount: nat)
    requires amount > 0
    ensures var s0 := State(0, None, [Tx(DeliveryEarning, Settled, amount, Foreign(0)),
                                      Tx(Withdrawal, Failed, -(amount as int), Keyed("a")),
                                      Tx(Withdrawal, Pending, -(amount as int), Keyed("b"))], []);
            Start(s0) && InTime(s0, Decide(1, Settled)) && Net(Run(s0, [Decide(1, Settled)]).rows) == -(amount as int)
  {
    var earning := Tx(DeliveryEarning, Settled, amount, Foreign(0));
    var failed, live := Tx(Withdrawal, Failed, -(amount as int), Keyed("a")), Tx(Withdrawal, Pending, -(amount as int), Keyed("b"));
    var s0 := State(0, None, [earning, failed, live], []);
    RunOne(s0, Decide(1, Settled));
    assert Net([earning]) == amount by { assert [earning][..0] == []; }
    hide Run, Net;
    NetAppend([earning], failed);
    NetAppend([earning, failed], live);
    assert [earning] + [failed] == [earning, failed];
    assert [earning, failed] + [live] == s0.rows;
    NetUpdate(s0.rows, 1, failed.(status := Settled));
  }

  /** The first lookup alone does not suffice: two requests with one key can both pass it. */
  lemma FirstLookupLetsBothThrough(amount: nat, key: string)
    requires amount > 0 && key != ""
    ensures var arrive := Arrive(amount, key, true, true);
            var s := Run(State(0, None, [], []), [arrive, arrive] + [Step(0), Step(1)]);
            |s.requests| == 2 && s.requests[0].stage == Checked && s.requests[1].stage == Checked
  {
    var s0 := State(0, None, [], []);
    var arrive := Arrive(amount, key, true, true);
    RunTwo(s0, arrive, arrive);
    RunConcat(s0, [arrive, arrive], [Step(0), Step(1)]);
    RunTwo(Run(s0, [arrive, arrive]), Step(0), Step(1));
  }
}
