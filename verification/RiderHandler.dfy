/**
 * The withdrawal handler on the stored rider, one request on its own.
 */
module RiderHandler {
  import opened Wrappers
  import opened RiderWithdrawal
  import opened RiderConditions

  function StepsLeft(stage: Stage): nat {
    match stage
    case Arrived => 7
    case Checked => 6
    case Timed(_) => 5
    case Holding(_) => 4
    case Rechecked(_) => 3
    case Funded(_) => 2
    case Leaving(_, _) => 1
    case Done(_) => 0
  }

  /** Request p runs to its answer with nothing in between. */
  function Finish(s: State, p: nat): State
    requires p < |s.requests|
    decreases StepsLeft(s.requests[p].stage)
  {
    if s.requests[p].stage.Done? then s else Finish(Advance(s, p), p)
  }

  lemma {:induction false} FinishIsASchedule(s: State, p: nat) returns (n: nat)
    requires p < |s.requests|
    ensures n <= StepsLeft(s.requests[p].stage)
    ensures Finish(s, p) == Run(s, Steps(p, n))
    decreases StepsLeft(s.requests[p].stage)
  {
    if s.requests[p].stage.Done? {
      n := 0;
    } else {
      var m := FinishIsASchedule(Advance(s, p), p);
      n := m + 1;
      StepsAdvance(s, p, n);
    }
  }

  /** The rider document and the rider's transaction rows. */
  class RiderAccount {
    var clock: nat
    var lockedUntil: Option<nat>
    var rows: seq<Tx>
    var requests: seq<Request>

    ghost function Snapshot(): State
      reads this
    {
      State(clock, lockedUntil, rows, requests)
    }

    constructor (clock: nat, rows: seq<Tx>)
      ensures Snapshot() == State(clock, None, rows, [])
    {
      this.clock, this.lockedUntil, this.rows, this.requests := clock, None, rows, [];
    }

    method Mark(p: nat, stage: Stage)
      requires p < |requests|
      modifies this`requests
      ensures Snapshot() == SetStage(old(Snapshot()), p, stage)
    {
      requests := requests[p := requests[p].(stage := stage)];
    }

    /** The `finally` block: give the lease back and answer. */
    method Release(p: nat, outcome: Outcome)
      requires p < |requests| && requests[p].stage.Leaving? && requests[p].stage.outcome == outcome
      modifies this`requests, this`lockedUntil
      ensures Snapshot() == Finish(old(Snapshot()), p)
      ensures lockedUntil == None && |requests| == |old(requests)| && requests[p].stage == Done(outcome)
    {
      lockedUntil := None;
      Mark(p, Done(outcome));
    }

    /** requestWithdrawal from its first lookup to its answer, undisturbed. */
    method Process(p: nat) returns (outcome: Outcome)
      requires p < |requests| && requests[p].stage == Arrived && requests[p].amount > 0
      modifies this
      ensures Snapshot() == Finish(old(Snapshot()), p)
      ensures |requests| == |old(requests)| && requests[p].stage == Done(outcome)
    {
      var r := requests[p];
      var existing := Lookup(rows, r.key);
      if existing.Some? {
        outcome := Repeated(existing.value);
        Mark(p, Done(outcome));
        return;
      }
      if !r.riderKnown {
        outcome := NoRider;
        Mark(p, Done(outcome));
        return;
      }
      Mark(p, Checked);
      assert Snapshot() == Advance(old(Snapshot()), p);
      label checked:
      var now := clock;
      Mark(p, Timed(now));
      assert Snapshot() == Advance(old@checked(Snapshot()), p);
      label timed:
      if lockedUntil.Some? && lockedUntil.value >= now {
        outcome := Busy;
        Mark(p, Done(outcome));
        assert Snapshot() == Advance(old@timed(Snapshot()), p);
        assert Finish(old@timed(Snapshot()), p) == Snapshot();
        return;
      }
      lockedUntil := Some(now + LEASE_MS);
      Mark(p, Holding(now + LEASE_MS));
      assert Snapshot() == Advance(old@timed(Snapshot()), p);
      label held:
      assert Finish(old(Snapshot()), p) == Finish(old@checked(Snapshot()), p);
      assert Finish(old@checked(Snapshot()), p) == Finish(old@timed(Snapshot()), p);
      assert Finish(old@timed(Snapshot()), p) == Finish(old@held(Snapshot()), p);
      outcome := Decided(p);
    }

    /** The critical section: second lookup, balance, bank details, insert, release. */
    method Decided(p: nat) returns (outcome: Outcome)
      requires p < |requests| && requests[p].stage.Holding?
      modifies this
      ensures Snapshot() == Finish(old(Snapshot()), p)
      ensures |requests| == |old(requests)| && requests[p].stage == Done(outcome)
    {
      var r := requests[p];
      var until := r.stage.until;
      var existing := Lookup(rows, r.key);
      if existing.Some? {
        outcome := Repeated(existing.value);
        Mark(p, Leaving(until, outcome));
        Release(p, outcome);
        return;
      }
      Mark(p, Rechecked(until));
      var _, _, _, available := WithdrawableBalance(rows);
      if r.amount > available {
        outcome := Insufficient;
        Mark(p, Leaving(until, outcome));
        Release(p, outcome);
        return;
      }
      Mark(p, Funded(until));
      assert Snapshot() == Advance(Advance(old(Snapshot()), p), p);
      assert Finish(Snapshot(), p) == Finish(old(Snapshot()), p);
      hide Finish, Advance, Net;
      outcome := Insert(p);
    }

    /** Bank details, insert, release. */
    method Insert(p: nat) returns (outcome: Outcome)
      requires p < |requests| && requests[p].stage.Funded?
      modifies this
      ensures Snapshot() == Finish(old(Snapshot()), p)
      ensures |requests| == |old(requests)| && requests[p].stage == Done(outcome)
    {
      var r := requests[p];
      var until := r.stage.until;
      var reference := if r.key != "" then Keyed(r.key) else Stamped(clock);
      if !r.bankValid {
        outcome := BadBank;
      } else if Find(rows, reference).Some? {
        outcome := DuplicateKey;
      } else {
        outcome := Created(|rows|);
        rows := rows + [Tx(Withdrawal, Pending, -Abs(r.amount), reference)];
      }
      Mark(p, Leaving(until, outcome));
      assert Snapshot() == Advance(old(Snapshot()), p);
      assert Finish(Snapshot(), p) == Finish(old(Snapshot()), p);
      hide Finish, Advance, Find, Net;
      Release(p, outcome);
    }
  }

  /** Whether request p may insert its row, and that row. */
  predicate Withdraws(s: State, p: nat)
    requires p < |s.requests|
  {
    var r := s.requests[p];
    Lookup(s.rows, r.key).None? && r.amount <= Net(s.rows) && r.bankValid && Find(s.rows, NewReference(s, p)).None?
  }

  function WithRow(s: State, p: nat): seq<Tx>
    requires p < |s.requests|
  {
    if Withdraws(s, p) then s.rows + [Tx(Withdrawal, Pending, -s.requests[p].amount, NewReference(s, p))] else s.rows
  }

  lemma LeaveOutcome(s: State, p: nat)
    requires p < |s.requests| && s.requests[p].stage.Leaving?
    ensures var t := Finish(s, p);
      && p < |t.requests| && t.requests[p].stage == Done(s.requests[p].stage.outcome)
      && t.rows == s.rows && t.lockedUntil == None
  {
  }

  lemma FundedOutcome(s: State, p: nat)
    requires p < |s.requests| && s.requests[p].stage.Funded? && s.requests[p].amount > 0
    requires Lookup(s.rows, s.requests[p].key).None? && s.requests[p].amount <= Net(s.rows)
    ensures var t := Finish(s, p);
      && p < |t.requests| && t.requests[p].stage.Done?
      && (t.requests[p].stage.outcome.Created? <==> Withdraws(s, p))
      && t.rows == WithRow(s, p) && t.lockedUntil == None
  {
    var t := Advance(s, p);
    assert Finish(s, p) == Finish(t, p);
    assert t.rows == WithRow(s, p) && t.requests[p].stage.Leaving?;
    assert t.requests[p].stage.outcome.Created? <==> Withdraws(s, p);
    LeaveOutcome(t, p);
    hide Finish, Advance, Net, Find, Lookup;
  }

  lemma LeaseOutcome(s: State, p: nat)
    requires p < |s.requests| && s.requests[p].stage.Holding? && s.requests[p].amount > 0
    ensures var t := Finish(s, p);
      && p < |t.requests| && t.requests[p].stage.Done?
      && (t.requests[p].stage.outcome.Created? <==> Withdraws(s, p))
      && t.rows == WithRow(s, p) && t.lockedUntil == None
  {
    var t := Advance(s, p);
    assert Finish(s, p) == Finish(t, p) && t.rows == s.rows && t.clock == s.clock;
    if Lookup(s.rows, s.requests[p].key).Some? {
      assert t.requests[p].stage.Leaving? && !t.requests[p].stage.outcome.Created?;
      LeaveOutcome(t, p);
    } else {
      RecheckedOutcome(t, p);
    }
    hide Finish, Advance, Net, Find, Lookup;
  }

  lemma RecheckedOutcome(s: State, p: nat)
    requires p < |s.requests| && s.requests[p].stage.Rechecked? && s.requests[p].amount > 0
    requires Lookup(s.rows, s.requests[p].key).None?
    ensures var t := Finish(s, p);
      && p < |t.requests| && t.requests[p].stage.Done?
      && (t.requests[p].stage.outcome.Created? <==> Withdraws(s, p))
      && t.rows == WithRow(s, p) && t.lockedUntil == None
  {
    var t := Advance(s, p);
    assert Finish(s, p) == Finish(t, p) && t.rows == s.rows && t.clock == s.clock;
    if s.requests[p].amount > Net(s.rows) {
      assert t.requests[p].stage.Leaving? && !t.requests[p].stage.outcome.Created?;
      LeaveOutcome(t, p);
    } else {
      FundedOutcome(t, p);
    }
    hide Finish, Advance, Net, Find, Lookup;
  }

  /** What an undisturbed request answers, and when it withdraws. */
  lemma {:induction false} UndisturbedOutcome(s: State, p: nat)
    requires p < |s.requests| && s.requests[p].stage == Arrived && s.requests[p].amount > 0
    ensures var r := s.requests[p];
      var t := Finish(s, p);
      var enters := Lookup(s.rows, r.key).None? && r.riderKnown && LeaseFree(s);
      && p < |t.requests| && t.requests[p].stage.Done?
      && (t.requests[p].stage.outcome.Created? <==> enters && Withdraws(s, p))
      && t.rows == (if enters then WithRow(s, p) else s.rows)
      && t.lockedUntil == (if enters then None else s.lockedUntil)
  {
    var r := s.requests[p];
    if Lookup(s.rows, r.key).None? && r.riderKnown {
      var t := Advance(Advance(s, p), p);
      assert t.requests[p] == r.(stage := Timed(s.clock)) && t.rows == s.rows && t.lockedUntil == s.lockedUntil;
      assert Finish(s, p) == Finish(t, p);
      if LeaseFree(s) {
        LeaseOutcome(Advance(t, p), p);
        assert WithRow(Advance(t, p), p) == WithRow(s, p);
      } else {
        assert Finish(t, p) == Finish(Advance(t, p), p) == Advance(t, p);
      }
    } else {
      assert Finish(s, p) == Finish(Advance(s, p), p) == Advance(s, p);
    }
  }
}
