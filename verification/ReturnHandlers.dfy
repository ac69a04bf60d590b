/**
 * The return handlers on the stored order, one request at a time.
 */
module ReturnHandlers {
  import opened Wrappers
  import opened ReturnModel
  import opened ReturnFlow
  import opened ReturnRefund

  function CallsLeft(at: Progress): nat {
    match at case Loaded => 3 case Coded => 2 case Spent => 1 case Ended => 0
  }

  /** The request runs to its end with nothing in between. */
  function FinishRequest(c: Core, h: Handling): Core
    decreases CallsLeft(h.at)
  {
    if h.at == Ended then c else FinishRequest(Next(c, h).0, Next(c, h).1)
  }

  /** One request on its own: the check, and its calls if it passes. */
  function Served(c: Core, r: Request): Core {
    if Allowed(c, r) then FinishRequest(c, Handling(r, c, 0, Loaded)) else c
  }

  /** A request of one call, or one refused by its code. */
  lemma ShortRequest(c: Core, r: Request)
    requires Allowed(c, r)
    ensures LastCall(Handling(r, c, 0, Loaded)) ==> Served(c, r) == Write(c, Handling(r, c, 0, Loaded))
    ensures r.VerifyDrop? && !(r.ok && c.drop.live) ==> Served(c, r) == c
  {
    var h := Handling(r, c, 0, Loaded);
    var next := Next(c, h);
    hide Write;
    assert FinishRequest(c, h) == FinishRequest(next.0, next.1);
  }

  lemma DropOtpServed(c: Core)
    requires Allowed(c, DropOtp)
    ensures Served(c, DropOtp) == c.(drop := NewCode(c.drop), status := DropPending)
  {
    var h := Handling(DropOtp, c, 0, Loaded);
    var made := c.(drop := NewCode(c.drop));
    assert FinishRequest(c, h) == FinishRequest(c, h.(at := Coded)) == FinishRequest(made, h.(at := Spent));
    assert FinishRequest(made, h.(at := Spent)) == Write(made, h.(at := Spent));
  }

  lemma VerifyDropServed(c: Core)
    requires Allowed(c, VerifyDrop(true)) && c.drop.live
    ensures Served(c, VerifyDrop(true))
         == c.(drop := c.drop.(live := false), status := Returned, jobs := c.jobs + [Job(c.commission, c.flagPaid)])
  {
    var h := Handling(VerifyDrop(true), c, c.drop.serial, Coded);
    var used := c.(drop := c.drop.(live := false));
    assert FinishRequest(c, h.(code := 0, at := Loaded)) == FinishRequest(c, h) == FinishRequest(used, h.(at := Spent));
    assert FinishRequest(used, h.(at := Spent)) == Write(used, h.(at := Spent));
  }

  function Calls(h: nat, n: nat): seq<Event> {
    if n == 0 then [] else [Proceed(h)] + Calls(h, n - 1)
  }

  /** Serving a request on its own is one of the runs of the machine. */
  lemma {:induction false} FinishRequestIsARun(w: World, h: nat, n: nat, atomic: bool)
    requires h < |w.handlings| && CallsLeft(w.handlings[h].at) <= n
    ensures Run(w, Calls(h, n), atomic).core == FinishRequest(w.core, w.handlings[h])
    decreases n
  {
    if n > 0 {
      var u := Apply(w, Proceed(h), atomic);
      assert Calls(h, n)[0] == Proceed(h) && Calls(h, n)[1..] == Calls(h, n - 1);
      assert u.handlings[h] == Next(w.core, w.handlings[h]).1 && u.core == Next(w.core, w.handlings[h]).0;
      FinishRequestIsARun(u, h, n - 1, atomic);
    }
  }

  /** The body without a transaction never asks whether the seller can pay. */
  lemma {:induction false} LegacyIgnoresSeller(c: Core, q: Inspection, sellerCanPay: bool)
    ensures Finish(c, q, sellerCanPay, false) == Finish(c, q, true, false)
    decreases StagesLeft(q.stage)
  {
    if q.stage != Over {
      var r := InspectStep(c, q, sellerCanPay, false);
      assert r == InspectStep(c, q, true, false);
      StagesFall(c, q, sellerCanPay, false);
      hide InspectStep;
      LegacyIgnoresSeller(r.0, r.1, sellerCanPay);
    }
  }

  /** A passing inspection of this order that has come as far as `stage`. */
  function At(c: Core, stage: Stage): Inspection {
    Begin(c, true).(stage := stage)
  }

  lemma SameInspection(c: Core, u: Core, stage: Stage)
    requires u == c.(rows := u.rows, credits := u.credits)
    ensures At(u, stage) == At(c, stage)
  {
  }

  class ReturnDesk {
    const parties: Parties
    const atomic: bool
    var status: Status
    var rider: Option<nat>
    var items: nat
    var approvedAmount: nat
    var commission: nat
    var flagPaid: bool
    var pickup: Code
    var drop: Code
    var rows: map<Ref, int>
    var credits: seq<nat>
    var paid: seq<nat>
    var jobs: seq<Job>
    var unbooked: seq<Job>
    var unflagged: nat

    constructor (parties: Parties, atomic: bool)
      ensures this.atomic == atomic && Now().parties == parties && Untouched(World(Now(), [], []))
    {
      this.parties, this.atomic := parties, atomic;
      status, rider, items, approvedAmount, commission := NoReturn, None, 0, 0, 0;
      flagPaid, pickup, drop := false, Code(0, false), Code(0, false);
      rows, credits, paid, jobs, unbooked, unflagged := map[], [], [], [], [], 0;
    }

    function Now(): Core
      reads this
    {
      Core(parties, status, rider, items, approvedAmount, commission, flagPaid, pickup, drop, rows, credits, paid, jobs, unbooked, unflagged)
    }

    /** updateReturnStatus: forward only, by the ranking of the three statuses it sets. */
    method UpdateReturnStatus(to: Status) returns (ok: bool)
      modifies this`status
      ensures Now() == Served(old(Now()), Update(to))
      ensures ok <==> (to == PickupAssigned || to == InTransit || to == Returned) && Rank(to) >= Rank(old(status))
    {
      ok := to == PickupAssigned || to == InTransit || to == Returned;
      if !ok { return; }
      ok := Rank(to) >= Rank(status);
      if ok {
        ShortRequest(Now(), Update(to));
        hide FinishRequest;
        status := to;
      }
    }

    method AcceptPickup(user: nat) returns (mine: bool)
      modifies this`status, this`rider
      ensures Now() == Served(old(Now()), Accept(user))
      ensures mine <==> rider == Some(user)
    {
      if rider.Some? { return rider == Some(user); }
      ShortRequest(Now(), Accept(user));
      hide FinishRequest;
      rider, status := Some(user), PickupAssigned;
      mine := true;
    }

    method RejectPickup(user: nat) returns (ok: bool)
      modifies this`status, this`rider
      ensures Now() == Served(old(Now()), GiveUp(user))
      ensures ok <==> old(rider) == Some(user) && old(status) == PickupAssigned
    {
      ok := rider == Some(user) && status == PickupAssigned;
      if ok {
        ShortRequest(Now(), GiveUp(user));
        hide FinishRequest;
        rider, status := None, Approved;
      }
    }

    /** requestReturnDropOtp: a new code in place of the old one, and the status with it. */
    method RequestDropOtp() returns (ok: bool)
      modifies this`status, this`drop
      ensures Now() == Served(old(Now()), DropOtp)
      ensures ok <==> rider.Some? && old(status) in {InTransit, DropPending}
      ensures ok ==> drop.live && drop.serial > old(drop.serial)
    {
      ok := rider.Some? && (status == InTransit || status == DropPending);
      if !ok { return; }
      DropOtpServed(Now());
      hide Served;
      drop := Code(drop.serial + 1, true);
      status := DropPending;
    }

    /** verifyReturnDropOtp: the code is used up, the order returned, and the commission left to the background. */
    method VerifyDropOtp(matches: bool) returns (ok: bool)
      modifies this`status, this`drop, this`jobs
      ensures Now() == Served(old(Now()), VerifyDrop(matches))
      ensures ok <==> rider.Some? && old(drop.live) && matches
      ensures ok ==> !drop.live && status == Returned
    {
      ok := rider.Some? && drop.live && matches;
      if !ok {
        if rider.Some? { ShortRequest(Now(), VerifyDrop(matches)); }
        return;
      }
      VerifyDropServed(Now());
      hide Served;
      drop, status := drop.(live := false), Returned;
      jobs := jobs + [Job(commission, flagPaid)];
    }

    /** The background commission, first part: the rider's wallet. */
    method CreditNextJob()
      modifies this`jobs, this`paid, this`unbooked
      ensures Now() == Handle(old(Now()), RunJob)
    {
      if jobs == [] { return; }
      var job := jobs[0];
      jobs := jobs[1..];
      if job.commission == 0 || job.alreadyPaid { return; }
      paid, unbooked := paid + [job.commission], unbooked + [job];
    }

    /** Second part: the row, which ends the job if its reference is taken. */
    method BookNextJob()
      modifies this`rows, this`unflagged, this`unbooked
      ensures Now() == Handle(old(Now()), BookJob)
    {
      if unbooked == [] { return; }
      var job := unbooked[0];
      unbooked := unbooked[1..];
      if RetDrop in rows { return; }
      rows, unflagged := rows[RetDrop := job.commission], unflagged + 1;
    }

    /** Third part: the flag on the order. */
    method FlagNextJob()
      modifies this`flagPaid, this`unflagged
      ensures Now() == Handle(old(Now()), FlagJob)
    {
      if unflagged == 0 { return; }
      unflagged, flagPaid := unflagged - 1, true;
    }

    method BookRows()
      modifies this`rows
      ensures Now() == old(Now()).(rows := Booked(old(Now())))
    {
      hide Amount, RefundsCustomer, ChargesSeller, PaysRider;
      var c := Now();
      var booked := rows;
      if RefundsCustomer(c) { booked := booked[RefWallet := Amount(c)]; }
      if ChargesSeller(c) { booked := booked[RefSell := -(Amount(c) as int)]; }
      if PaysRider(c) { booked := booked[RetDel := commission]; }
      rows := booked;
    }

    /** The refund in one transaction. */
    method CompleteReturnAndRefund(sellerCanPay: bool)
      requires status == QcPassed
      modifies this`status, this`credits, this`rows, this`paid
      ensures Now() == AtomicRefund(old(Now()), sellerCanPay)
    {
      hide Amount, RefundsCustomer, ChargesSeller, PaysRider, Aborts, Booked;
      var c := Now();
      if Aborts(c, sellerCanPay) { return; }
      BookRows();
      if RefundsCustomer(c) { credits := credits + [Amount(c)]; }
      if PaysRider(c) { paid := paid + [commission]; }
      status := Refunded;
    }

    /** The first block: the wallet is credited before its row is stored, or refused. */
    method CreditCustomer() returns (refused: bool)
      modifies this`credits, this`rows
      ensures var c := old(Now());
        if RefundsCustomer(c) && c.parties.known
        then
          && refused == (RefWallet in c.rows)
          && Now() == c.(credits := c.credits + [Amount(c)],
                         rows := if refused then c.rows else c.rows[RefWallet := Amount(c)])
        else !refused && Now() == c
    {
      var amount := if approvedAmount != 0 then approvedAmount else items;
      refused := false;
      if parties.customer && amount > 0 && parties.known {
        credits := credits + [amount];
        refused := RefWallet in rows;
        if !refused { rows := rows[RefWallet := amount]; }
      }
    }

    /** The three blocks of completeReturnAndRefundLegacy; each stops the handler when its row is refused. */
    method CompleteReturnAndRefundLegacy()
      requires status == QcPassed
      modifies this`status, this`credits, this`rows, this`paid
      ensures Now() == Finish(old(Now()), At(old(Now()), Crediting), true, false)
    {
      ghost var c := Now();
      FromCrediting(c, At(c, Crediting));
      hide Finish, PaysRider;
      var refused := CreditCustomer();
      if refused { return; }
      assert At(Now(), SellerRow) == At(c, Crediting).(stage := SellerRow) by { SameInspection(c, Now(), SellerRow); }
      FromSeller(if approvedAmount != 0 then approvedAmount else items);
    }

    /** The second block: the seller's row. */
    method ChargeSeller(amount: nat) returns (refused: bool)
      modifies this`rows
      ensures var c := old(Now());
        if c.parties.seller && amount > 0
        then
          && refused == (RefSell in c.rows)
          && Now() == c.(rows := if refused then c.rows else c.rows[RefSell := -(amount as int)])
        else !refused && Now() == c
    {
      refused := false;
      if parties.seller && amount > 0 {
        refused := RefSell in rows;
        if !refused { rows := rows[RefSell := -(amount as int)]; }
      }
    }

    method FromSeller(amount: nat)
      requires amount == Amount(Now())
      modifies this`status, this`rows, this`paid
      ensures Now() == Finish(old(Now()), At(old(Now()), SellerRow), true, false)
    {
      ghost var c := Now();
      FromSellerRow(c, At(c, SellerRow));
      hide Finish, PaysRider;
      var refused := ChargeSeller(amount);
      if refused { return; }
      assert At(Now(), Paying) == At(c, SellerRow).(stage := Paying) by { SameInspection(c, Now(), Paying); }
      PayCommission();
    }

    method PayCommission()
      modifies this`status, this`rows, this`paid
      ensures Now() == Finish(old(Now()), At(old(Now()), Paying), true, false)
    {
      FromPaying(Now(), At(Now(), Paying));
      hide Finish;
      if rider.Some? && commission > 0 && !flagPaid {
        paid := paid + [commission];
        if RetDel in rows { return; }
        rows := rows[RetDel := commission];
      }
      status := Refunded;
    }

    /** updateReturnQcStatus with no other request in between. */
    method UpdateReturnQcStatus(pass: bool, sellerCanPay: bool) returns (ok: bool)
      modifies this`status, this`credits, this`rows, this`paid
      ensures ok <==> old(status) == Returned
      ensures Now() == if ok then Finish(old(Now()), Begin(old(Now()), pass), sellerCanPay, atomic) else old(Now())
    {
      ok := status == Returned;
      if !ok { return; }
      ghost var c := Now();
      status := if pass then QcPassed else QcFailed;
      if pass {
        AtomicFinish(c, sellerCanPay);
        LegacyIgnoresSeller(c, Begin(c, true), sellerCanPay);
        assert Finish(c, Begin(c, true), true, false) == Finish(Now(), At(Now(), Crediting), true, false);
        hide Finish;
        if atomic { CompleteReturnAndRefund(sellerCanPay); } else { CompleteReturnAndRefundLegacy(); }
      }
    }
  }
}
