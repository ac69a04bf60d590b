/**
 * A seller's withdrawal request (sellerController.js requestWithdrawal): the balance is
 * computed from every transaction, then a row is inserted, with nothing held in between.
 * Money is in paise.
 */
module SellerWithdrawal {
  import opened Wrappers

  datatype Status = Pending | Processing | Settled | Failed

  datatype Tx = Tx(withdrawal: bool, amount: int, status: Status)

  function Size(n: int): nat {
    if n < 0 then -n else n
  }

  /** What a row adds to the available balance. */
  function Weight(t: Tx): int {
    if t.status.Settled? then t.amount
    else if t.withdrawal && !t.status.Failed? then -(Size(t.amount) as int)
    else 0
  }

  function Available(rows: seq<Tx>): int {
    if rows == [] then 0 else Weight(rows[0]) + Available(rows[1..])
  }

  lemma {:induction false} AvailableAppend(rows: seq<Tx>, t: Tx)
    ensures Available(rows + [t]) == Available(rows) + Weight(t)
  {
    if rows == [] {
      assert [] + [t] == [t] && [t][1..] == [];
    } else {
      AvailableAppend(rows[1..], t);
      assert (rows + [t])[1..] == rows[1..] + [t];
    }
  }

  lemma {:induction false} AvailableUpdate(rows: seq<Tx>, i: nat, t: Tx)
    requires i < |rows|
    ensures Available(rows[i := t]) == Available(rows) - Weight(rows[i]) + Weight(t)
  {
    if i == 0 {
      assert rows[i := t][1..] == rows[1..];
    } else {
      AvailableUpdate(rows[1..], i - 1, t);
      assert rows[i := t][1..] == rows[1..][i - 1 := t];
    }
  }

  // ---------------------------------------------------------------------------
  // Requests and everything else that moves the balance
  // ---------------------------------------------------------------------------

  /** `waiting` holds the amounts that passed the balance check and are not inserted yet. */
  datatype World = World(rows: seq<Tx>, waiting: map<nat, int>)

  datatype Event =
    | Check(p: nat, amount: int)
    | Insert(p: nat)
    | Post(t: Tx)
    | Judge(row: nat, status: Status)

  function Asked(amount: int): Tx {
    Tx(true, -(Size(amount) as int), Pending)
  }

  function Apply(w: World, ev: Event): World {
    match ev
    case Check(p, amount) =>
      if p in w.waiting || amount <= 0 || amount > Available(w.rows) then w else w.(waiting := w.waiting[p := amount])
    case Insert(p) =>
      if p !in w.waiting then w else World(w.rows + [Asked(w.waiting[p])], w.waiting - {p})
    case Post(t) => w.(rows := w.rows + [t])
    case Judge(row, status) =>
      if row < |w.rows| && !status.Pending?
      then w.(rows := w.rows[row := w.rows[row].(status := status)]) else w
  }

  function Run(w: World, evs: seq<Event>): World
    decreases |evs|
  {
    if evs == [] then w else Run(Apply(w, evs[0]), evs[1..])
  }

  /** The row inserted or posted, or the decision taken, costs at most the balance. */
  predicate Affordable(w: World, ev: Event) {
    match ev
    case Insert(p) => p in w.waiting ==> Size(w.waiting[p]) <= Available(w.rows)
    case Post(t) => -Weight(t) <= Available(w.rows)
    case Judge(row, status) =>
      row < |w.rows| && !status.Pending? ==> Weight(w.rows[row]) - Weight(w.rows[row].(status := status)) <= Available(w.rows)
    case Check(_, _) => true
  }

  /** From any non-negative balance a step keeps it so exactly when it is affordable. */
  lemma BalanceKeptIff(w: World, ev: Event)
    requires Available(w.rows) >= 0
    ensures Available(Apply(w, ev).rows) >= 0 <==> Affordable(w, ev)
  {
    match ev
    case Check(p, amount) =>
    case Insert(p) => if p in w.waiting { AvailableAppend(w.rows, Asked(w.waiting[p])); }
    case Post(t) => AvailableAppend(w.rows, t);
    case Judge(row, status) =>
      if row < |w.rows| { AvailableUpdate(w.rows, row, w.rows[row].(status := status)); }
  }

  predicate AllAffordable(w: World, evs: seq<Event>)
    decreases |evs|
  {
    evs != [] ==> Affordable(w, evs[0]) && AllAffordable(Apply(w, evs[0]), evs[1..])
  }

  /** No overdraft at the end of any part of the run. */
  predicate Solvent(w: World, evs: seq<Event>)
    decreases |evs|
  {
    Available(w.rows) >= 0 && (evs != [] ==> Solvent(Apply(w, evs[0]), evs[1..]))
  }

  /** A run of requests, postings and decisions is never overdrawn exactly when each of its steps is affordable. */
  lemma {:induction false} NeverOverdrawnIff(w: World, evs: seq<Event>)
    requires Available(w.rows) >= 0
    ensures Solvent(w, evs) <==> AllAffordable(w, evs)
    decreases |evs|
  {
    hide Apply, Available, Affordable;
    if evs != [] {
      BalanceKeptIff(w, evs[0]);
      if Available(Apply(w, evs[0]).rows) >= 0 { NeverOverdrawnIff(Apply(w, evs[0]), evs[1..]); }
    }
  }

  /** Deciding an open withdrawal never costs anything; settling one that had failed costs its amount. */
  lemma DecisionCosts(t: Tx, status: Status)
    requires t.withdrawal && t.amount <= 0 && !status.Pending?
    ensures Weight(t) - Weight(t.(status := status)) <=
      if t.status.Failed? && !status.Failed? then Size(t.amount) else 0
    ensures t.status.Failed? && status.Settled? ==> Weight(t) - Weight(t.(status := status)) == Size(t.amount)
  {
  }

  /** The refund of a return is posted to the seller as a settled debit: past the balance it overdraws with no withdrawal at all. */
  lemma RefundOverdraws(rows: seq<Tx>, refund: nat)
    requires 0 <= Available(rows) < refund
    ensures var post := Post(Tx(false, -(refund as int), Settled));
      && !Affordable(World(rows, map[]), post)
      && Available(Apply(World(rows, map[]), post).rows) == Available(rows) - refund < 0
  {
    AvailableAppend(rows, Tx(false, -(refund as int), Settled));
  }

  /** Nothing keeps two requests apart: each may take the whole balance. */
  lemma TwoRequestsOverdraw(amount: int)
    requires amount > 0
    ensures var w := World([Tx(false, amount, Settled)], map[]);
            var after := Run(w, [Check(1, amount), Check(2, amount), Insert(1), Insert(2)]);
      Available(after.rows) == -amount && after.waiting == map[]
  {
    var w := World([Tx(false, amount, Settled)], map[]);
    var evs := [Check(1, amount), Check(2, amount), Insert(1), Insert(2)];
    AvailableAppend([], Tx(false, amount, Settled));
    assert [] + w.rows == w.rows;
    var w2 := World(w.rows, map[1 := amount, 2 := amount]);
    assert Apply(Apply(w, evs[0]), evs[1]) == w2;
    AvailableAppend(w.rows, Asked(amount));
    AvailableAppend(w.rows + [Asked(amount)], Asked(amount));
    var w4 := Apply(Apply(w2, evs[2]), evs[3]);
    assert w4.rows == w.rows + [Asked(amount)] + [Asked(amount)];
    assert evs[1..] == [evs[1], evs[2], evs[3]] && [evs[1], evs[2], evs[3]][1..] == [evs[2], evs[3]];
    assert [evs[2], evs[3]][1..] == [evs[3]] && [evs[3]][1..] == [];
    assert Run(w, evs) == Run(w2, [evs[2], evs[3]]) == Run(Apply(w2, evs[2]), [evs[3]]) == w4;
  }

  // ---------------------------------------------------------------------------
  // The handler
  // ---------------------------------------------------------------------------

  class Account {
    var rows: seq<Tx>

    constructor ()
      ensures rows == []
    {
      rows := [];
    }

    /** Two filters and two sums over the transactions. */
    method Balance() returns (settled: int, payouts: int)
      ensures settled - payouts == Available(rows)
    {
      settled, payouts := 0, 0;
      var i := 0;
      while i < |rows|
        invariant 0 <= i <= |rows|
        invariant settled - payouts + Available(rows[i..]) == Available(rows)
      {
        var t := rows[i];
        if t.status.Settled? { settled := settled + t.amount; }
        if t.withdrawal && (t.status.Pending? || t.status.Processing?) { payouts := payouts + Size(t.amount); }
        i := i + 1;
      }
    }

    method RequestWithdrawal(amount: int) returns (ok: bool)
      modifies this
      ensures ok <==> 0 < amount <= Available(old(rows))
      ensures rows == if ok then old(rows) + [Asked(amount)] else old(rows)
      ensures Available(rows) == if ok then Available(old(rows)) - amount else Available(old(rows))
    {
      if amount <= 0 { return false; }
      var settled, payouts := Balance();
      ok := amount <= settled - payouts;
      if ok {
        AvailableAppend(rows, Asked(amount));
        rows := rows + [Asked(amount)];
      }
    }
  }
}
