/**
 * COD cash a rider hands to the admin (deliveryController.submitDeliveryCodCashToAdmin):
 * the amount is spread over the rider's collected orders, oldest first, and each share is
 * booked by reconcileCodCash. Amounts are in paise.
 */
module CodSettlement {
  import opened Wrappers

  /** `ready`: a COD order of this rider, not cancelled, whose cash is marked collected. */
  datatype CodOrder = CodOrder(ready: bool, collected: int, remitted: int, pending: int)

  datatype Share = Share(order: nat, amount: int)

  datatype Submission =
    | Submitted(total: int, shares: seq<Share>, cashInHand: int)
    | NothingPending
    | BadAmount
    | TooMuch(available: int)

  predicate Balanced(o: CodOrder) {
    0 <= o.remitted && 0 <= o.pending && o.collected == o.remitted + o.pending
  }

  predicate AllBalanced(orders: seq<CodOrder>) {
    forall i :: 0 <= i < |orders| ==> Balanced(orders[i])
  }

  /** What the query lets the loop see of one order. */
  function Due(o: CodOrder): nat {
    if o.ready && o.pending > 0 then o.pending else 0
  }

  function Payable(orders: seq<CodOrder>): nat {
    if orders == [] then 0 else Due(orders[0]) + Payable(orders[1..])
  }

  function Settle(o: CodOrder, share: int): CodOrder {
    o.(remitted := o.remitted + share, pending := o.pending - share)
  }

  /** The books after `amount` is spread over the orders, oldest first. */
  function SettleOldest(orders: seq<CodOrder>, amount: nat): (after: seq<CodOrder>)
    ensures |after| == |orders|
  {
    if orders == [] then []
    else
      var share := Min(Due(orders[0]), amount);
      [Settle(orders[0], share)] + SettleOldest(orders[1..], amount - share)
  }

  // ---------------------------------------------------------------------------
  // What SettleOldest means: the only oldest-first settlement of the amount
  // ---------------------------------------------------------------------------

  function Paid(before: CodOrder, after: CodOrder): int {
    after.remitted - before.remitted
  }

  function TotalPaid(before: seq<CodOrder>, after: seq<CodOrder>): int
    requires |before| == |after|
  {
    if before == [] then 0 else Paid(before[0], after[0]) + TotalPaid(before[1..], after[1..])
  }

  /** Each order only moves money from pending to remitted, and no more than is due. */
  predicate Settlement(before: seq<CodOrder>, after: seq<CodOrder>) {
    && |before| == |after|
    && forall i :: 0 <= i < |before| ==>
         && 0 <= Paid(before[i], after[i]) <= Due(before[i])
         && after[i] == Settle(before[i], Paid(before[i], after[i]))
  }

  /** After an order that is not paid in full every younger one is untouched. */
  predicate OldestFirst(before: seq<CodOrder>, after: seq<CodOrder>)
    requires |before| == |after|
  {
    before != [] ==>
      && (Paid(before[0], after[0]) == Due(before[0]) || after[1..] == before[1..])
      && OldestFirst(before[1..], after[1..])
  }

  lemma {:induction false} SettlesExactly(orders: seq<CodOrder>, amount: nat)
    ensures Settlement(orders, SettleOldest(orders, amount))
    ensures TotalPaid(orders, SettleOldest(orders, amount)) == Min(amount, Payable(orders))
  {
    if orders != [] {
      var share := Min(Due(orders[0]), amount);
      SettlesExactly(orders[1..], amount - share);
      assert SettleOldest(orders, amount)[1..] == SettleOldest(orders[1..], amount - share);
    }
  }

  lemma {:induction false} NothingLeft(orders: seq<CodOrder>)
    ensures SettleOldest(orders, 0) == orders
  {
    if orders != [] { NothingLeft(orders[1..]); }
  }

  lemma {:induction false} SettlesOldestFirst(orders: seq<CodOrder>, amount: nat)
    ensures OldestFirst(orders, SettleOldest(orders, amount))
  {
    if orders != [] {
      var share := Min(Due(orders[0]), amount);
      SettlesOldestFirst(orders[1..], amount - share);
      NothingLeft(orders[1..]);
      assert SettleOldest(orders, amount)[1..] == SettleOldest(orders[1..], amount - share);
    }
  }

  /** Any oldest-first settlement of the amount is this one. */
  lemma {:induction false} OnlySettlement(orders: seq<CodOrder>, amount: nat, after: seq<CodOrder>)
    requires Settlement(orders, after) && OldestFirst(orders, after) && TotalPaid(orders, after) == amount
    ensures after == SettleOldest(orders, amount)
  {
    if orders != [] {
      var first := Paid(orders[0], after[0]);
      assert Settlement(orders[1..], after[1..]);
      if after[1..] == orders[1..] { UnpaidTotal(orders[1..]); }
      PaidTotal(orders[1..], after[1..]);
      OnlySettlement(orders[1..], amount - first, after[1..]);
      assert after == [after[0]] + after[1..];
    }
  }

  lemma {:induction false} UnpaidTotal(orders: seq<CodOrder>)
    ensures TotalPaid(orders, orders) == 0
  {
    if orders != [] { UnpaidTotal(orders[1..]); }
  }

  lemma {:induction false} PaidTotal(before: seq<CodOrder>, after: seq<CodOrder>)
    requires Settlement(before, after)
    ensures 0 <= TotalPaid(before, after)
  {
    if before != [] { PaidTotal(before[1..], after[1..]); }
  }

  /** A paid-up prefix, at most one part-paid order, and untouched orders after it. */
  lemma {:induction false} PaidUpPrefix(orders: seq<CodOrder>, amount: nat) returns (k: nat)
    ensures k <= |orders|
    ensures forall i :: 0 <= i < k ==> SettleOldest(orders, amount)[i] == Settle(orders[i], Due(orders[i]))
    ensures k < |orders| ==> exists part :: 0 <= part < Due(orders[k]) && SettleOldest(orders, amount)[k] == Settle(orders[k], part)
    ensures forall i :: k < i < |orders| ==> SettleOldest(orders, amount)[i] == orders[i]
  {
    if orders == [] {
      k := 0;
    } else {
      var share := Min(Due(orders[0]), amount);
      var tail := SettleOldest(orders[1..], amount - share);
      assert SettleOldest(orders, amount) == [Settle(orders[0], share)] + tail;
      if share < Due(orders[0]) {
        k := 0;
        NothingLeft(orders[1..]);
      } else {
        var rest := PaidUpPrefix(orders[1..], amount - share);
        k := rest + 1;
      }
    }
  }

  // ---------------------------------------------------------------------------
  // Runs of submissions
  // ---------------------------------------------------------------------------

  lemma SettleCons(o: CodOrder, rest: seq<CodOrder>, amount: nat)
    ensures var share := Min(Due(o), amount);
      SettleOldest([o] + rest, amount) == [Settle(o, share)] + SettleOldest(rest, amount - share)
  {
    assert ([o] + rest)[1..] == rest;
  }

  lemma SettleNone(amount: nat)
    ensures SettleOldest([], amount) == []
  {
  }

  lemma FirstBalanced(orders: seq<CodOrder>)
    requires AllBalanced(orders) && orders != []
    ensures Balanced(orders[0]) && AllBalanced(orders[1..]) && orders == [orders[0]] + orders[1..]
  {
  }

  lemma DueAfter(o: CodOrder, a: nat, b: nat)
    requires Balanced(o)
    ensures var x := Min(Due(o), a);
      var y := Min(Due(Settle(o, x)), b);
      Min(Due(o), a + b) == x + y && Settle(Settle(o, x), y) == Settle(o, x + y)
  {
  }

  /** Paying a and then b settles every order exactly as paying a + b at once. */
  lemma {:induction false} SettleAgain(orders: seq<CodOrder>, a: nat, b: nat)
    requires AllBalanced(orders)
    ensures SettleOldest(SettleOldest(orders, a), b) == SettleOldest(orders, a + b)
  {
    hide SettleOldest, Due, AllBalanced, Settle;
    if orders == [] {
      SettleNone(a);
      SettleNone(b);
      SettleNone(a + b);
    } else {
      var o, rest := orders[0], orders[1..];
      FirstBalanced(orders);
      DueAfter(o, a, b);
      var x := Min(Due(o), a);
      var y := Min(Due(Settle(o, x)), b);
      calc {
        SettleOldest(SettleOldest(orders, a), b);
        { SettleTwice(o, rest, a, b); }
        [Settle(Settle(o, x), y)] + SettleOldest(SettleOldest(rest, a - x), b - y);
        { SettleAgain(rest, a - x, b - y); }
        [Settle(o, x + y)] + SettleOldest(rest, a - x + (b - y));
        { SettleCons(o, rest, a + b); }
        SettleOldest(orders, a + b);
      }
    }
  }

  lemma SettleTwice(o: CodOrder, rest: seq<CodOrder>, a: nat, b: nat)
    ensures var x := Min(Due(o), a);
      var y := Min(Due(Settle(o, x)), b);
      SettleOldest(SettleOldest([o] + rest, a), b)
      == [Settle(Settle(o, x), y)] + SettleOldest(SettleOldest(rest, a - x), b - y)
  {
    hide SettleOldest, Due, Settle;
    SettleCons(o, rest, a);
    SettleCons(Settle(o, Min(Due(o), a)), SettleOldest(rest, a - Min(Due(o), a)), b);
  }

  lemma {:induction false} SettlingKeepsBalance(orders: seq<CodOrder>, amount: nat)
    requires AllBalanced(orders)
    ensures AllBalanced(SettleOldest(orders, amount))
  {
    SettlesExactly(orders, amount);
  }

  function Sum(amounts: seq<nat>): nat {
    if amounts == [] then 0 else amounts[0] + Sum(amounts[1..])
  }

  /** The books after a list of amounts, one submission at a time. */
  function SubmitMany(orders: seq<CodOrder>, amounts: seq<nat>): seq<CodOrder>
    decreases |amounts|
  {
    if amounts == [] then orders else SubmitMany(SettleOldest(orders, amounts[0]), amounts[1..])
  }

  /**
   * However the cash is split over submissions, every order ends as if the whole had been
   * submitted once, and on each order collected = remitted + pending throughout.
   */
  lemma {:induction false} ManySubmissionsAreOne(orders: seq<CodOrder>, amounts: seq<nat>)
    requires AllBalanced(orders)
    ensures AllBalanced(SubmitMany(orders, amounts))
    ensures SubmitMany(orders, amounts) == SettleOldest(orders, Sum(amounts))
    decreases |amounts|
  {
    if amounts == [] {
      NothingLeft(orders);
    } else {
      SettlingKeepsBalance(orders, amounts[0]);
      hide SettleOldest, AllBalanced;
      ManySubmissionsAreOne(SettleOldest(orders, amounts[0]), amounts[1..]);
      SettleAgain(orders, amounts[0], Sum(amounts[1..]));
    }
  }

  // ---------------------------------------------------------------------------
  // The handler
  // ---------------------------------------------------------------------------

  function Total(shares: seq<Share>): int {
    if shares == [] then 0 else Total(shares[..|shares| - 1]) + shares[|shares| - 1].amount
  }

  /** Positive shares of distinct orders below `bound`, oldest first. */
  predicate InOrder(shares: seq<Share>, bound: nat) {
    && (forall k :: 0 <= k < |shares| ==> shares[k].amount > 0 && shares[k].order < bound)
    && (forall j, k :: 0 <= j < k < |shares| ==> shares[j].order < shares[k].order)
  }

  lemma PushShare(shares: seq<Share>, s: Share)
    requires InOrder(shares, s.order) && s.amount > 0
    ensures InOrder(shares + [s], s.order + 1) && Total(shares + [s]) == Total(shares) + s.amount
  {
  }

  /** From order i on, `remaining` is still to be spread; `goal` is the final state of the books. */
  ghost predicate Standing(orders: seq<CodOrder>, i: nat, remaining: nat, goal: seq<CodOrder>) {
    && i <= |orders| && AllBalanced(orders)
    && orders[..i] + SettleOldest(orders[i..], remaining) == goal
    && remaining <= Payable(orders[i..])
  }

  lemma StandingNext(orders: seq<CodOrder>, i: nat, remaining: nat, goal: seq<CodOrder>)
    requires Standing(orders, i, remaining, goal) && i < |orders|
    ensures var share := Min(Due(orders[i]), remaining);
            Standing(orders[i := Settle(orders[i], share)], i + 1, remaining - share, goal)
  {
  }

  lemma NoShares()
    ensures InOrder([], 0) && Total([]) == 0
  {
  }

  lemma SameShares(shares: seq<Share>, i: nat)
    requires InOrder(shares, i)
    ensures InOrder(shares, i + 1)
  {
  }

  lemma StandingStart(orders: seq<CodOrder>, amount: nat)
    requires AllBalanced(orders) && amount <= Payable(orders)
    ensures Standing(orders, 0, amount, SettleOldest(orders, amount))
  {
    assert orders[0..] == orders && orders[..0] == [];
  }

  lemma StandingIsBalanced(orders: seq<CodOrder>, i: nat, remaining: nat, goal: seq<CodOrder>)
    requires Standing(orders, i, remaining, goal) && i < |orders|
    ensures Balanced(orders[i])
  {
  }

  lemma StandingEnd(orders: seq<CodOrder>, remaining: nat, goal: seq<CodOrder>)
    requires Standing(orders, |orders|, remaining, goal)
    ensures orders == goal && remaining == 0 && AllBalanced(orders)
  {
    assert orders[|orders|..] == [] && orders[..|orders|] == orders;
  }

  class CodBook {
    var orders: seq<CodOrder>         // oldest first, as the query sorts them
    var adminBalance: int
    var cashInHand: int
    var settlements: seq<int>         // amounts of the "Cash Settlement" rows

    constructor (orders: seq<CodOrder>, adminBalance: int, cashInHand: nat)
      ensures this.orders == orders && this.adminBalance == adminBalance && this.cashInHand == cashInHand
      ensures settlements == []
    {
      this.orders, this.adminBalance, this.cashInHand, this.settlements := orders, adminBalance, cashInHand, [];
    }

    /** reconcileCodCash: one transaction that books a share, or throws and changes nothing. */
    method Reconcile(i: nat, share: int) returns (ok: bool)
      requires i < |orders|
      modifies this`orders, this`adminBalance, this`cashInHand
      ensures ok == (0 < share <= old(orders[i]).collected - old(orders[i]).remitted)
      ensures ok ==>
                && orders == old(orders)[i := old(orders[i]).(remitted := old(orders[i]).remitted + share,
                                                             pending := old(orders[i]).collected - old(orders[i]).remitted - share)]
                && adminBalance == old(adminBalance) + share
                && cashInHand == Max(0, old(cashInHand) - share)
      ensures !ok ==> orders == old(orders) && adminBalance == old(adminBalance) && cashInHand == old(cashInHand)
    {
      var o := orders[i];
      var outstanding := o.collected - o.remitted;
      if share <= 0 || outstanding <= 0 || share > outstanding {
        return false;
      }
      cashInHand := Max(0, cashInHand - share);
      adminBalance := adminBalance + share;
      var remitted := o.remitted + share;
      orders := orders[i := o.(remitted := remitted, pending := o.collected - remitted)];
      ok := true;
    }

    method TotalPending() returns (total: nat)
      ensures total == Payable(orders)
    {
      total := 0;
      for i := 0 to |orders|
        invariant total + Payable(orders[i..]) == Payable(orders)
      {
        total := total + Due(orders[i]);
        assert orders[i..][1..] == orders[i + 1..];
      }
    }

    /** `requested` is the rounded amount in the request, None when it was left out. */
    method Submit(requested: Option<int>) returns (result: Submission)
      requires AllBalanced(orders) && cashInHand >= 0
      modifies this
      ensures AllBalanced(orders)
      ensures var available := Payable(old(orders));
        var amount := requested.GetOr(available);
        if available == 0 then result == NothingPending
        else if requested.Some? && requested.value <= 0 then result == BadAmount
        else if amount > available then result == TooMuch(available)
        else
          && result.Submitted? && result.total == amount && result.cashInHand == cashInHand
          && Total(result.shares) == amount && InOrder(result.shares, |orders|)
          && orders == SettleOldest(old(orders), amount)
          && adminBalance == old(adminBalance) + amount
          && cashInHand == Max(0, old(cashInHand) - amount)
          && settlements == old(settlements) + [-amount]
      ensures !result.Submitted? ==>
                orders == old(orders) && adminBalance == old(adminBalance) && cashInHand == old(cashInHand) && settlements == old(settlements)
    {
      var available := TotalPending();
      if available == 0 {
        return NothingPending;
      }
      if requested.Some? && requested.value <= 0 {
        return BadAmount;
      }
      var amount := requested.GetOr(available);
      if amount > available {
        return TooMuch(available);
      }
      var shares := Spread(amount);
      settlements := settlements + [-amount];
      result := Submitted(amount, shares, cashInHand);
    }

    /** One turn of the settlement loop: as much of the order as is due and remains. */
    method BookDue(i: nat, remaining: nat) returns (share: nat)
      requires i < |orders| && Balanced(orders[i]) && cashInHand >= 0
      modifies this`orders, this`adminBalance, this`cashInHand
      ensures share == Min(Due(old(orders[i])), remaining)
      ensures orders == old(orders)[i := Settle(old(orders[i]), share)]
      ensures adminBalance == old(adminBalance) + share && cashInHand == Max(0, old(cashInHand) - share)
    {
      var due := if orders[i].ready && orders[i].pending > 0 then orders[i].pending else 0;
      share := 0;
      if due > 0 && remaining > 0 {
        share := Min(due, remaining);
        var ok := Reconcile(i, share);
      }
    }

    /** The settlement loop: the whole payable amount is booked and no share is refused. */
    method Spread(amount: nat) returns (shares: seq<Share>)
      requires AllBalanced(orders) && cashInHand >= 0 && 0 < amount <= Payable(orders)
      modifies this`orders, this`adminBalance, this`cashInHand
      ensures Total(shares) == amount && InOrder(shares, |orders|) && AllBalanced(orders)
      ensures orders == SettleOldest(old(orders), amount)
      ensures adminBalance == old(adminBalance) + amount && cashInHand == Max(0, old(cashInHand) - amount)
    {
      hide Standing, SettleOldest, Payable, AllBalanced, Total, InOrder;
      ghost var goal := SettleOldest(orders, amount);
      var total, remaining := 0, amount;
      shares := [];
      StandingStart(orders, amount);
      NoShares();
      var n := |orders|;
      for i := 0 to n
        invariant |orders| == n && remaining >= 0
        invariant Standing(orders, i, remaining, goal)
        invariant total + remaining == amount && total == Total(shares) && InOrder(shares, i)
        invariant adminBalance == old(adminBalance) + total && cashInHand == Max(0, old(cashInHand) - total)
      {
        StandingNext(orders, i, remaining, goal);
        StandingIsBalanced(orders, i, remaining, goal);
        var share := BookDue(i, remaining);
        if share > 0 {
          PushShare(shares, Share(i, share));
          shares := shares + [Share(i, share)];
        } else {
          SameShares(shares, i);
        }
        total, remaining := total + share, remaining - share;
      }
      StandingEnd(orders, remaining, goal);
    }
  }
}
