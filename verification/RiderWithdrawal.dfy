/**
 * Withdrawal requests of one rider (deliveryController.requestWithdrawal): a 15 second
 * lease on the rider document, an idempotency lookup before and inside the lease, a
 * balance check and an insert. Every await is a point where other requests may run, so
 * a request is a small program counter and a run is any schedule of its steps.
 * Money is in paise, time in milliseconds.
 */
module RiderWithdrawal {
  import opened Wrappers

  const LEASE_MS: nat := 15000

  datatype TxType = DeliveryEarning | Incentive | Bonus | Withdrawal | CashSettlement
  datatype TxStatus = Pending | Processing | Settled | Failed

  /** The unique `reference` column: keyed by the idempotency key, or by the clock. */
  datatype Reference = Keyed(key: string) | Stamped(at: nat) | Foreign(serial: nat)

  datatype Tx = Tx(kind: TxType, status: TxStatus, amount: int, reference: Reference)

  datatype Outcome =
    | Created(row: nat) | Repeated(row: nat)
    | Busy | Insufficient | BadBank | BadAmount | NoRider | DuplicateKey | ServerError

  datatype Stage =
    | Arrived
    | Checked
    | Timed(now: nat)
    | Holding(until: nat)
    | Rechecked(until: nat)
    | Funded(until: nat)
    | Leaving(until: nat, outcome: Outcome)
    | Done(outcome: Outcome)
  {
    /** Between taking the lease and giving it back. */
    predicate InLease() {
      Holding? || Rechecked? || Funded? || Leaving?
    }
  }

  datatype Request = Request(amount: int, key: string, riderKnown: bool, bankValid: bool, stage: Stage)

  datatype State = State(clock: nat, lockedUntil: Option<nat>, rows: seq<Tx>, requests: seq<Request>)

  datatype Event =
    | Tick(to: nat)
    | Arrive(amount: int, key: string, riderKnown: bool, bankValid: bool)
    | Step(p: nat)
    | Crash(p: nat)
    | Earn(kind: TxType, earning: nat, reference: Reference)
    | Decide(row: nat, status: TxStatus)

  // ---------------------------------------------------------------------------
  // Balance
  // ---------------------------------------------------------------------------

  predicate IsEarning(kind: TxType) {
    kind == DeliveryEarning || kind == Incentive || kind == Bonus
  }

  function Abs(x: int): int {
    if x < 0 then -x else x
  }

  /** What one row adds to or takes from the rider's withdrawable money. */
  function Effect(t: Tx): int {
    if IsEarning(t.kind) && t.status == Settled then t.amount
    else if t.kind == Withdrawal && t.status != Failed then -Abs(t.amount)
    else 0
  }

  /** Settled earnings minus every withdrawal that has not failed. */
  function Net(rows: seq<Tx>): int {
    if rows == [] then 0 else Net(rows[..|rows| - 1]) + Effect(rows[|rows| - 1])
  }

  lemma NetAppend(rows: seq<Tx>, t: Tx)
    ensures Net(rows + [t]) == Net(rows) + Effect(t)
  {
  }

  lemma {:induction false} NetUpdate(rows: seq<Tx>, i: nat, t: Tx)
    requires i < |rows|
    ensures Net(rows[i := t]) == Net(rows) - Effect(rows[i]) + Effect(t)
  {
    var n := |rows| - 1;
    if i < n {
      NetUpdate(rows[..n], i, t);
      assert rows[i := t][..n] == rows[..n][i := t];
    } else {
      assert rows[i := t][..n] == rows[..n];
    }
  }

  lemma SumNext(rows: seq<Tx>, i: nat)
    requires i < |rows|
    ensures Net(rows[..i + 1]) == Net(rows[..i]) + Effect(rows[i])
  {
    NetAppend(rows[..i], rows[i]);
    assert rows[..i + 1] == rows[..i] + [rows[i]];
  }

  /** getRiderWithdrawableBalance: three sums over every transaction, floored at zero. */
  method WithdrawableBalance(rows: seq<Tx>) returns (earned: int, paid: int, inFlight: int, available: int)
    ensures earned - paid - inFlight == Net(rows)
    ensures available == Max(0, Net(rows))
  {
    earned, paid, inFlight := 0, 0, 0;
    for i := 0 to |rows|
      invariant earned - paid - inFlight == Net(rows[..i])
    {
      var t := rows[i];
      if t.status == Settled && IsEarning(t.kind) {
        earned := earned + t.amount;
      }
      if t.status == Settled && t.kind == Withdrawal {
        paid := paid + Abs(t.amount);
      }
      if (t.status == Pending || t.status == Processing) && t.kind == Withdrawal {
        inFlight := inFlight + Abs(t.amount);
      }
      SumNext(rows, i);
    }
    assert rows[..|rows|] == rows;
    available := Max(0, earned - paid - inFlight);
  }

  // ---------------------------------------------------------------------------
  // One atomic step
  // ---------------------------------------------------------------------------

  function Find(rows: seq<Tx>, r: Reference): (found: Option<nat>)
    ensures found.Some? ==> found.value < |rows| && rows[found.value].reference == r
    ensures found.None? ==> forall i :: 0 <= i < |rows| ==> rows[i].reference != r
  {
    if rows == [] then None
    else
      var earlier := Find(rows[..|rows| - 1], r);
      if earlier.Some? then earlier
      else if rows[|rows| - 1].reference == r then Some(|rows| - 1)
      else None
  }

  function Lookup(rows: seq<Tx>, key: string): Option<nat> {
    if key == "" then None else Find(rows, Keyed(key))
  }

  function SetStage(s: State, p: nat, stage: Stage): State
    requires p < |s.requests|
  {
    s.(requests := s.requests[p := s.requests[p].(stage := stage)])
  }

  /** The next step of request p, decided by where it stands. */
  function Advance(s: State, p: nat): State
    requires p < |s.requests|
  {
    var r := s.requests[p];
    match r.stage
    case Arrived =>
      (match Lookup(s.rows, r.key)
       case Some(i) => SetStage(s, p, Done(Repeated(i)))
       case None => SetStage(s, p, if r.riderKnown then Checked else Done(NoRider)))
    case Checked => SetStage(s, p, Timed(s.clock))
    case Timed(now) =>
      if s.lockedUntil.None? || s.lockedUntil.value < now
      then SetStage(s.(lockedUntil := Some(now + LEASE_MS)), p, Holding(now + LEASE_MS))
      else SetStage(s, p, Done(Busy))
    case Holding(until) =>
      (match Lookup(s.rows, r.key)
       case Some(i) => SetStage(s, p, Leaving(until, Repeated(i)))
       case None => SetStage(s, p, Rechecked(until)))
    case Rechecked(until) =>
      SetStage(s, p, if r.amount > Max(0, Net(s.rows)) then Leaving(until, Insufficient) else Funded(until))
    case Funded(until) =>
      var reference := if r.key != "" then Keyed(r.key) else Stamped(s.clock);
      if !r.bankValid then SetStage(s, p, Leaving(until, BadBank))
      else if Find(s.rows, reference).Some? then SetStage(s, p, Leaving(until, DuplicateKey))
      else
        SetStage(s.(rows := s.rows + [Tx(Withdrawal, Pending, -Abs(r.amount), reference)]),
                 p, Leaving(until, Created(|s.rows|)))
    case Leaving(_, outcome) => SetStage(s.(lockedUntil := None), p, Done(outcome))
    case Done(_) => s
  }

  /** An exception: inside the lease the `finally` block is still to come. */
  function Throw(s: State, p: nat): State
    requires p < |s.requests|
  {
    var stage := s.requests[p].stage;
    match stage
    case Done(_) => s
    case Leaving(_, _) => s
    case Holding(until) => SetStage(s, p, Leaving(until, ServerError))
    case Rechecked(until) => SetStage(s, p, Leaving(until, ServerError))
    case Funded(until) => SetStage(s, p, Leaving(until, ServerError))
    case _ => SetStage(s, p, Done(ServerError))
  }

  predicate LeaseFree(s: State) {
    s.lockedUntil.None? || s.lockedUntil.value < s.clock
  }

  function Apply(s: State, e: Event): State {
    match e
    case Tick(to) => if to >= s.clock then s.(clock := to) else s
    case Arrive(amount, key, riderKnown, bankValid) =>
      s.(requests := s.requests +
           [Request(amount, key, riderKnown, bankValid, if amount <= 0 then Done(BadAmount) else Arrived)])
    case Step(p) => if p < |s.requests| then Advance(s, p) else s
    case Crash(p) => if p < |s.requests| then Throw(s, p) else s
    case Earn(kind, earning, reference) =>
      if IsEarning(kind) && reference.Foreign? && Find(s.rows, reference).None?
      then s.(rows := s.rows + [Tx(kind, Settled, earning, reference)])
      else s
    case Decide(i, status) =>
      if i < |s.rows| && status != Pending then s.(rows := s.rows[i := s.rows[i].(status := status)]) else s
  }

  function Run(s: State, es: seq<Event>): State
    decreases |es|
  {
    if es == [] then s else Run(Apply(s, es[0]), es[1..])
  }

  // ---------------------------------------------------------------------------
  // Schedules
  // ---------------------------------------------------------------------------

  lemma {:induction false} RunConcat(s: State, a: seq<Event>, b: seq<Event>)
    ensures Run(s, a + b) == Run(Run(s, a), b)
    decreases |a|
  {
    hide Apply;
    if a == [] {
      assert a + b == b;
    } else {
      assert (a + b)[1..] == a[1..] + b;
      RunConcat(Apply(s, a[0]), a[1..], b);
    }
  }

  lemma RunNone(s: State)
    ensures Run(s, []) == s
  {}

  lemma InsertStep(s: State, p: nat)
    requires p < |s.requests| && s.requests[p].key == "" && s.requests[p].bankValid
    requires s.requests[p].stage.Funded? && s.requests[p].amount > 0
    requires forall i :: 0 <= i < |s.rows| ==> s.rows[i].reference != Stamped(s.clock)
    ensures var row := Tx(Withdrawal, Pending, -s.requests[p].amount, Stamped(s.clock));
            Advance(s, p) == SetStage(s.(rows := s.rows + [row]), p, Leaving(s.requests[p].stage.until, Created(|s.rows|)))
    ensures Net(Advance(s, p).rows) == Net(s.rows) - s.requests[p].amount
  {
  }

  lemma RunOne(s: State, e: Event)
    ensures Run(s, [e]) == Apply(s, e)
  {
  }

  lemma RunTwo(s: State, e: Event, f: Event)
    ensures Run(s, [e, f]) == Apply(Apply(s, e), f)
  {
    assert [e, f][1..] == [f];
    RunOne(Apply(s, e), f);
  }

  lemma RunThen(s: State, a: seq<Event>, t: State, b: seq<Event>, u: State) returns (c: seq<Event>)
    requires Run(s, a) == t && Run(t, b) == u
    ensures c == a + b && Run(s, c) == u
  {
    RunConcat(s, a, b);
    c := a + b;
  }

  function Steps(p: nat, n: nat): (es: seq<Event>)
    ensures |es| == n
  {
    seq(n, _ => Step(p))
  }

  lemma {:induction false} StepsAdvance(s: State, p: nat, n: nat)
    requires n > 0 && p < |s.requests|
    ensures Run(s, Steps(p, n)) == Run(Advance(s, p), Steps(p, n - 1))
  {
    assert Steps(p, n)[1..] == Steps(p, n - 1);
  }

  // ---------------------------------------------------------------------------
  // Hypotheses on a run
  // ---------------------------------------------------------------------------

  /** A lease holder only acts while its lease has not expired; one that stops for good is allowed. */
  predicate InTime(s: State, e: Event) {
    (e.Step? || e.Crash?) && e.p < |s.requests| && s.requests[e.p].stage.InLease()
    ==> s.clock <= s.requests[e.p].stage.until
  }

  /** The admin never revives a failed withdrawal and never unsettles an earning. */
  predicate NoRevival(s: State, e: Event) {
    e.Decide? && e.row < |s.rows| ==>
      var t := s.rows[e.row];
      && (t.kind == Withdrawal ==> t.status != Failed)
      && (IsEarning(t.kind) ==> t.status != Settled)
  }

  predicate Admissible(s: State, es: seq<Event>)
    decreases |es|
  {
    es == [] || (InTime(s, es[0]) && NoRevival(s, es[0]) && Admissible(Apply(s, es[0]), es[1..]))
  }

  ghost predicate Start(s: State) {
    && s.requests == []
    && s.lockedUntil == None
    && Net(s.rows) >= 0
    && EarningsPositive(s.rows)
    && UniqueReferences(s.rows)
  }

  // ---------------------------------------------------------------------------
  // Invariant
  // ---------------------------------------------------------------------------

  /** Request p is inside its lease and the lease has not expired. */
  predicate Active(s: State, p: int) {
    0 <= p < |s.requests| && s.requests[p].stage.InLease() && s.clock <= s.requests[p].stage.until
  }

  ghost predicate Exclusive(s: State) {
    forall p, q :: Active(s, p) && Active(s, q) ==> p == q
  }

  ghost predicate LockHeld(s: State) {
    forall p :: Active(s, p) ==> s.lockedUntil == Some(s.requests[p].stage.until)
  }

  ghost predicate TimesPast(s: State) {
    forall p :: 0 <= p < |s.requests| && s.requests[p].stage.Timed? ==> s.requests[p].stage.now <= s.clock
  }

  ghost predicate Covered(s: State) {
    forall p :: Active(s, p) && s.requests[p].stage.Funded? ==> s.requests[p].amount <= Net(s.rows)
  }

  /** Past the second lookup no row carries the request's key. */
  ghost predicate KeyFree(s: State) {
    forall p :: Active(s, p) && s.requests[p].key != "" && (s.requests[p].stage.Rechecked? || s.requests[p].stage.Funded?)
      ==> Find(s.rows, Keyed(s.requests[p].key)).None?
  }

  ghost predicate PositiveAmounts(s: State) {
    forall p :: 0 <= p < |s.requests| ==> s.requests[p].amount > 0 || s.requests[p].stage == Done(BadAmount)
  }

  ghost predicate UniqueReferences(rows: seq<Tx>) {
    forall i, j :: 0 <= i < j < |rows| ==> rows[i].reference != rows[j].reference
  }

  function Verdict(stage: Stage): Option<Outcome> {
    match stage
    case Leaving(_, o) => Some(o)
    case Done(o) => Some(o)
    case _ => None
  }

  /** A keyed success names the one row with that key, and a keyed insert never collides. */
  ghost predicate Answered(s: State) {
    forall p :: 0 <= p < |s.requests| && s.requests[p].key != "" ==>
      var v := Verdict(s.requests[p].stage);
      && (v.Some? && v.value.Created? ==> Names(s.rows, v.value.row, s.requests[p].key))
      && (v.Some? && v.value.Repeated? ==> Names(s.rows, v.value.row, s.requests[p].key))
      && v != Some(DuplicateKey)
  }

  predicate Names(rows: seq<Tx>, i: nat, key: string) {
    i < |rows| && rows[i].reference == Keyed(key)
  }

  ghost predicate Inv(s: State) {
    && Exclusive(s) && LockHeld(s) && TimesPast(s) && Covered(s) && KeyFree(s) && PositiveAmounts(s)
    && UniqueReferences(s.rows) && Answered(s) && Net(s.rows) >= 0 && EarningsPositive(s.rows)
  }

  ghost predicate EarningsPositive(rows: seq<Tx>) {
    forall i :: 0 <= i < |rows| && IsEarning(rows[i].kind) ==> rows[i].amount >= 0
  }

  // ---------------------------------------------------------------------------
  // Steps that change only rows
  // ---------------------------------------------------------------------------

  /** No row is renamed, no key appears, and the balance does not fall. */
  ghost predicate RowsGrow(before: seq<Tx>, after: seq<Tx>) {
    && Net(before) <= Net(after)
    && (forall key: string :: Find(before, Keyed(key)).None? ==> Find(after, Keyed(key)).None?)
    && (forall i, key :: Names(before, i, key) ==> Names(after, i, key))
    && UniqueReferences(after) && EarningsPositive(after)
  }

  lemma LeasesStay(s: State, t: State)
    requires t == s.(rows := t.rows) && Exclusive(s) && LockHeld(s) && TimesPast(s) && PositiveAmounts(s)
    ensures Exclusive(t) && LockHeld(t) && TimesPast(t) && PositiveAmounts(t)
    ensures forall p :: Active(t, p) <==> Active(s, p)
  {
    assert forall p :: Active(t, p) <==> Active(s, p);
  }

  lemma CoverStays(s: State, t: State)
    requires t == s.(rows := t.rows) && Covered(s) && KeyFree(s) && RowsGrow(s.rows, t.rows)
    requires forall p :: Active(t, p) <==> Active(s, p)
    ensures Covered(t) && KeyFree(t)
  {
    hide Net, Find, Names;
  }

  lemma AnswersStay(s: State, t: State)
    requires t == s.(rows := t.rows) && Answered(s) && RowsGrow(s.rows, t.rows)
    ensures Answered(t)
  {
    hide Net, Find, Names;
  }

  lemma {:induction false} RowsChangeKeeps(s: State, t: State)
    requires Inv(s) && t == s.(rows := t.rows) && RowsGrow(s.rows, t.rows)
    ensures Inv(t)
  {
    LeasesStay(s, t);
    CoverStays(s, t);
    AnswersStay(s, t);
    hide Exclusive, LockHeld, TimesPast, PositiveAmounts, Covered, KeyFree, Answered, Active;
  }

  lemma {:induction false} FindIn(rows: seq<Tx>, r: Reference)
    ensures Find(rows, r).None? <==> forall i :: 0 <= i < |rows| ==> rows[i].reference != r
  {
  }

  lemma EarningGrows(rows: seq<Tx>, row: Tx)
    requires UniqueReferences(rows) && EarningsPositive(rows)
    requires IsEarning(row.kind) && row.amount >= 0 && row.status == Settled && row.reference.Foreign? && Find(rows, row.reference).None?
    ensures RowsGrow(rows, rows + [row])
  {
    NetAppend(rows, row);
    hide Net;
    forall key: string | Find(rows, Keyed(key)).None? ensures Find(rows + [row], Keyed(key)).None? {
      FindIn(rows, Keyed(key));
      FindIn(rows + [row], Keyed(key));
      hide Find;
    }
    hide Find;
  }

  lemma DecisionGrows(rows: seq<Tx>, i: nat, status: TxStatus)
    requires UniqueReferences(rows) && EarningsPositive(rows) && i < |rows|
    requires rows[i].kind == Withdrawal ==> rows[i].status != Failed
    requires IsEarning(rows[i].kind) ==> rows[i].status != Settled
    ensures RowsGrow(rows, rows[i := rows[i].(status := status)])
  {
    var after := rows[i := rows[i].(status := status)];
    NetUpdate(rows, i, after[i]);
    hide Net;
    forall key: string | Find(rows, Keyed(key)).None? ensures Find(after, Keyed(key)).None? {
      FindIn(rows, Keyed(key));
      FindIn(after, Keyed(key));
      hide Find;
    }
    hide Find;
  }

  lemma {:induction false} DecideKeeps(s: State, e: Event)
    requires Inv(s) && e.Decide? && NoRevival(s, e)
    ensures Inv(Apply(s, e))
  {
    if e.row < |s.rows| && e.status != Pending {
      DecisionGrows(s.rows, e.row, e.status);
      RowsChangeKeeps(s, Apply(s, e));
    }
    hide Inv, RowsGrow;
  }

  lemma {:induction false} EarnKeeps(s: State, e: Event)
    requires Inv(s) && e.Earn?
    ensures Inv(Apply(s, e))
  {
    if Apply(s, e) != s {
      EarningGrows(s.rows, Tx(e.kind, Settled, e.earning, e.reference));
      RowsChangeKeeps(s, Apply(s, e));
    }
    hide Inv, RowsGrow;
  }

  // ---------------------------------------------------------------------------
  // The other steps
  // ---------------------------------------------------------------------------

  lemma ClockAndArrivalsKeep(s: State, e: Event)
    requires Inv(s) && (e.Tick? || e.Arrive?)
    ensures Inv(Apply(s, e))
  {
    var t := Apply(s, e);
    assert forall p :: Active(t, p) ==> Active(s, p);
    if e.Arrive? {
      assert forall p :: 0 <= p < |s.requests| ==> t.requests[p] == s.requests[p];
    }
  }

  /** Frame for a step of request p that changes neither the rows nor the lease. */
  lemma LocalStepKeeps(s: State, t: State, p: nat, stage: Stage)
    requires Inv(s) && p < |s.requests| && t == SetStage(s, p, stage)
    requires stage.InLease() ==> Active(s, p) && s.requests[p].stage.until == stage.until
    requires stage.Timed? ==> stage.now <= s.clock
    requires stage.Funded? ==> s.requests[p].amount <= Net(s.rows)
    requires s.requests[p].key != "" && (stage.Rechecked? || stage.Funded?) ==> Find(s.rows, Keyed(s.requests[p].key)).None?
    requires s.requests[p].key != "" && Verdict(stage).Some? && (Verdict(stage).value.Created? || Verdict(stage).value.Repeated?)
             ==> Names(s.rows, Verdict(stage).value.row, s.requests[p].key)
    requires s.requests[p].key != "" ==> Verdict(stage) != Some(DuplicateKey)
    requires s.requests[p].amount > 0
    ensures Inv(t)
  {
    assert forall q :: Active(t, q) ==> Active(s, q);
    assert forall q :: 0 <= q < |s.requests| && q != p ==> t.requests[q] == s.requests[q];
  }

  lemma AcquireKeeps(s: State, p: nat)
    requires Inv(s) && p < |s.requests| && s.requests[p].stage.Timed?
    ensures Inv(Advance(s, p))
  {
    var t := Advance(s, p);
    var now := s.requests[p].stage.now;
    if s.lockedUntil.None? || s.lockedUntil.value < now {
      forall q | Active(t, q) ensures q == p {
        if q != p { assert Active(s, q); }
      }
    } else {
      LocalStepKeeps(s, t, p, Done(Busy));
    }
  }

  /** The insert of a funded request: the only step that lowers the balance. */
  lemma FreshRowKeeps(s: State, t: State, p: nat, row: Tx)
    requires Inv(s) && Active(s, p) && s.requests[p].stage.Funded?
    requires row.kind == Withdrawal && row.amount == -Abs(s.requests[p].amount) && row.status == Pending
    requires Find(s.rows, row.reference).None?
    requires s.requests[p].key != "" ==> row.reference == Keyed(s.requests[p].key)
    requires t == SetStage(s.(rows := s.rows + [row]), p, Leaving(s.requests[p].stage.until, Created(|s.rows|)))
    ensures Inv(t)
  {
    NetAppend(s.rows, row);
    hide Net;
    forall q | Active(t, q) ensures q == p { assert Active(s, q); }
    assert LockHeld(t) && Exclusive(t) && Covered(t) && KeyFree(t);
    FreshRowAnswers(s, t, p, row);
    hide Answered, Find;
  }

  lemma FreshRowAnswers(s: State, t: State, p: nat, row: Tx)
    requires Answered(s) && p < |s.requests| && s.requests[p].stage.Funded?
    requires s.requests[p].key != "" ==> row.reference == Keyed(s.requests[p].key)
    requires t == SetStage(s.(rows := s.rows + [row]), p, Leaving(s.requests[p].stage.until, Created(|s.rows|)))
    ensures Answered(t)
  {
    forall q | 0 <= q < |t.requests| && q != p ensures t.requests[q] == s.requests[q] {}
    assert forall i, key :: Names(s.rows, i, key) ==> Names(t.rows, i, key);
  }

  lemma InsertKeeps(s: State, p: nat)
    requires Inv(s) && Active(s, p) && s.requests[p].stage.Funded? && s.requests[p].bankValid
    ensures Inv(Advance(s, p))
  {
    var r := s.requests[p];
    var reference := if r.key != "" then Keyed(r.key) else Stamped(s.clock);
    if Find(s.rows, reference).Some? {
      LocalStepKeeps(s, Advance(s, p), p, Leaving(r.stage.until, DuplicateKey));
    } else {
      FreshRowKeeps(s, Advance(s, p), p, Tx(Withdrawal, Pending, -Abs(r.amount), reference));
    }
  }

  lemma ReleaseKeeps(s: State, p: nat)
    requires Inv(s) && Active(s, p) && s.requests[p].stage.Leaving?
    ensures Inv(Advance(s, p))
  {
    var t := Advance(s, p);
    forall q | Active(t, q) ensures false { assert Active(s, q); }
    assert forall q :: 0 <= q < |s.requests| && q != p ==> t.requests[q] == s.requests[q];
  }

  lemma StepKeeps(s: State, p: nat)
    requires Inv(s) && InTime(s, Step(p)) && p < |s.requests|
    ensures Inv(Advance(s, p))
  {
    var r := s.requests[p];
    var t := Advance(s, p);
    match r.stage
    case Arrived => LocalStepKeeps(s, t, p, t.requests[p].stage);
    case Checked => LocalStepKeeps(s, t, p, Timed(s.clock));
    case Timed(_) => AcquireKeeps(s, p);
    case Holding(until) => LocalStepKeeps(s, t, p, t.requests[p].stage);
    case Rechecked(until) =>
      LocalStepKeeps(s, t, p, t.requests[p].stage);
    case Funded(until) =>
      if r.bankValid { InsertKeeps(s, p); } else { LocalStepKeeps(s, t, p, Leaving(until, BadBank)); }
    case Leaving(_, _) => ReleaseKeeps(s, p);
    case Done(_) =>
  }

  lemma ThrowKeeps(s: State, p: nat)
    requires Inv(s) && InTime(s, Crash(p)) && p < |s.requests|
    ensures Inv(Throw(s, p))
  {
    var t := Throw(s, p);
    if t != s { LocalStepKeeps(s, t, p, t.requests[p].stage); }
  }

  lemma ApplyKeeps(s: State, e: Event)
    requires Inv(s) && InTime(s, e) && NoRevival(s, e)
    ensures Inv(Apply(s, e))
  {
    match e
    case Step(p) => if p < |s.requests| { StepKeeps(s, p); }
    case Crash(p) => if p < |s.requests| { ThrowKeeps(s, p); }
    case Earn(_, _, _) => EarnKeeps(s, e);
    case Decide(_, _) => DecideKeeps(s, e);
    case Tick(_) => ClockAndArrivalsKeep(s, e);
    case Arrive(_, _, _, _) => ClockAndArrivalsKeep(s, e);
  }

  lemma {:induction false} RunKeeps(s: State, es: seq<Event>)
    requires Inv(s) && Admissible(s, es)
    ensures Inv(Run(s, es))
    decreases |es|
  {
    if es != [] {
      ApplyKeeps(s, es[0]);
      RunKeeps(Apply(s, es[0]), es[1..]);
    }
  }

  // ---------------------------------------------------------------------------
  // Main results: every schedule
  // ---------------------------------------------------------------------------

  /**
   * In every interleaving in which lease holders act in time, at most one request is
   * inside an unexpired lease and settled earnings cover every live withdrawal.
   */
  lemma NeverOverdrawn(s0: State, es: seq<Event>)
    requires Start(s0) && Admissible(s0, es)
    ensures Net(Run(s0, es).rows) >= 0
    ensures forall p, q :: Active(Run(s0, es), p) && Active(Run(s0, es), q) ==> p == q
  {
    RunKeeps(s0, es);
  }

  /** All successful answers to one idempotency key name the same row, the only one with that key. */
  lemma OneRowPerKey(s0: State, es: seq<Event>, p: nat, q: nat)
    requires Start(s0) && Admissible(s0, es)
    requires p < |Run(s0, es).requests| && q < |Run(s0, es).requests|
    ensures var s := Run(s0, es);
      var a, b := s.requests[p], s.requests[q];
      && (a.key != "" ==> a.stage != Done(DuplicateKey))
      && (a.key != "" && Answer(a.stage).Some? ==>
            && Names(s.rows, Answer(a.stage).value, a.key)
            && (b.key == a.key && Answer(b.stage).Some? ==> Answer(b.stage) == Answer(a.stage))
            && forall i :: Names(s.rows, i, a.key) ==> i == Answer(a.stage).value)
  {
    RunKeeps(s0, es);
  }

  /** The row a finished request reported as its withdrawal. */
  function Answer(stage: Stage): Option<nat> {
    match stage
    case Done(Created(i)) => Some(i)
    case Done(Repeated(i)) => Some(i)
    case _ => None
  }

  /** Where a retry may stand whose key has row i, from before the second lookup to its answer. */
  predicate Retrying(stage: Stage, i: nat) {
    match stage
    case Leaving(_, outcome) => outcome in {Repeated(i), ServerError}
    case Done(outcome) => outcome in {Repeated(i), ServerError, Busy, NoRider}
    case Rechecked(_) => false
    case Funded(_) => false
    case _ => true
  }

  ghost predicate RetryOf(s: State, p: nat, i: nat) {
    && UniqueReferences(s.rows)
    && p < |s.requests| && s.requests[p].key != "" && Retrying(s.requests[p].stage, i)
    && Names(s.rows, i, s.requests[p].key)
  }

  lemma OnlyRow(rows: seq<Tx>, i: nat, key: string)
    requires UniqueReferences(rows) && Names(rows, i, key)
    ensures Find(rows, Keyed(key)) == Some(i)
  {
  }

  lemma RowsKeepReferences(s: State, e: Event)
    requires UniqueReferences(s.rows)
    ensures UniqueReferences(Apply(s, e).rows)
    ensures forall i, key :: Names(s.rows, i, key) ==> Names(Apply(s, e).rows, i, key)
  {
    hide Net;
  }

  lemma RetryAdvances(s: State, p: nat, i: nat)
    requires RetryOf(s, p, i)
    ensures var t := Advance(s, p);
      t.rows == s.rows && |t.requests| == |s.requests| && t.requests[p].key == s.requests[p].key && Retrying(t.requests[p].stage, i)
  {
    OnlyRow(s.rows, i, s.requests[p].key);
    hide Net, Find;
  }

  lemma RetryStep(s: State, e: Event, p: nat, i: nat)
    requires RetryOf(s, p, i)
    ensures RetryOf(Apply(s, e), p, i)
    ensures e == Step(p) ==> Apply(s, e).rows == s.rows
  {
    RowsKeepReferences(s, e);
    if e == Step(p) {
      RetryAdvances(s, p, i);
      hide Advance, Net, Find;
    } else {
      assert e.Step? && e.p < |s.requests| ==> Advance(s, e.p).requests[p] == s.requests[p] && |Advance(s, e.p).requests| == |s.requests|;
      hide Advance, Net, Find;
    }
  }

  /** The rows that the steps of request p insert over a run. */
  function AddedBy(s: State, es: seq<Event>, p: nat): int
    decreases |es|
  {
    if es == [] then 0
    else (if es[0] == Step(p) then |Apply(s, es[0]).rows| - |s.rows| else 0) + AddedBy(Apply(s, es[0]), es[1..], p)
  }

  /**
   * In every run, in time or not: a retry that has not passed its second lookup when its key
   * has row i can only end with that row, busy, with no rider or with a server error, and
   * inserts nothing.
   */
  lemma {:induction false} RetryAnswersFirstRow(s: State, es: seq<Event>, p: nat, i: nat)
    requires RetryOf(s, p, i)
    ensures RetryOf(Run(s, es), p, i)
    ensures Run(s, es).requests[p].stage.Done? ==>
              Run(s, es).requests[p].stage.outcome in {Repeated(i), ServerError, Busy, NoRider}
    ensures AddedBy(s, es, p) == 0
    decreases |es|
  {
    hide Apply, Names;
    if es != [] {
      RetryStep(s, es[0], p, i);
      RetryAnswersFirstRow(Apply(s, es[0]), es[1..], p, i);
    }
  }
}
