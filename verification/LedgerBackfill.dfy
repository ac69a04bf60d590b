/**
 * The one-off script that copies every legacy transaction into the ledger
 * (scripts/backfill-ledger-from-transactions.js). It may be stopped at any row and started
 * again. Amounts are in paise.
 */
module LedgerBackfill {
  import opened Wrappers

  datatype Kind =
    | OrderPayment | DeliveryEarning | Withdrawal | Refund | Incentive | Bonus
    | CashCollection | CashSettlement | WalletPayment | WalletRefund | OtherKind

  datatype Owner = User | Seller | Delivery | Admin | OtherOwner

  datatype Progress = Pending | Processing | Settled | Failed | OtherProgress

  /** A legacy transaction. */
  datatype Tx = Tx(id: nat, kind: Kind, owner: Owner, amount: int, progress: Progress)

  datatype EntryType =
    | OnlinePaymentCaptured | RiderPayoutProcessed | EntryWithdrawal | EntryRefund | Adjustment
    | CodCollected | CodRemitted | EntryWalletRefund

  datatype Actor = Customer | ActorSeller | DeliveryPartner | ActorAdmin

  datatype EntryStatus = Completed | EntryFailed | EntryPending

  datatype Entry = Entry(actor: Actor, kind: EntryType, credit: bool, amount: nat, status: EntryStatus)

  /** The ledger by transactionId: LEGACY-TX-<id>, or an id of any other form. */
  datatype EntryId = LegacyTx(tx: nat) | Own(id: nat)

  type Ledger = map<EntryId, Entry>

  // ---------------------------------------------------------------------------
  // One row
  // ---------------------------------------------------------------------------

  function TypeOf(kind: Kind): Option<(EntryType, bool)> {
    match kind
    case OrderPayment => Some((OnlinePaymentCaptured, true))
    case DeliveryEarning => Some((RiderPayoutProcessed, true))
    case Withdrawal => Some((EntryWithdrawal, false))
    case Refund => Some((EntryRefund, true))
    case Incentive => Some((Adjustment, true))
    case Bonus => Some((Adjustment, true))
    case CashCollection => Some((CodCollected, false))
    case CashSettlement => Some((CodRemitted, false))
    case WalletPayment => Some((EntryWalletRefund, false))
    case WalletRefund => Some((EntryWalletRefund, true))
    case OtherKind => None
  }

  function ActorOf(owner: Owner): Option<Actor> {
    match owner
    case User => Some(Customer)
    case Seller => Some(ActorSeller)
    case Delivery => Some(DeliveryPartner)
    case Admin => Some(ActorAdmin)
    case OtherOwner => None
  }

  function StatusOf(p: Progress): EntryStatus {
    match p case Settled => Completed case Failed => EntryFailed case _ => EntryPending
  }

  predicate Mapped(tx: Tx) {
    TypeOf(tx.kind).Some? && ActorOf(tx.owner).Some?
  }

  function Convert(tx: Tx): Entry
    requires Mapped(tx)
  {
    var (kind, credit) := TypeOf(tx.kind).value;
    Entry(ActorOf(tx.owner).value, kind, if tx.kind.Refund? && tx.amount < 0 then false else credit,
          if tx.amount < 0 then -tx.amount else tx.amount, StatusOf(tx.progress))
  }

  /** The signed amount of a refund survives: a negative refund is a debit. */
  lemma RefundKeepsSign(tx: Tx)
    requires Mapped(tx) && tx.kind.Refund?
    ensures (if Convert(tx).credit then Convert(tx).amount else -(Convert(tx).amount as int)) == tx.amount
  {
  }

  // ---------------------------------------------------------------------------
  // All rows
  // ---------------------------------------------------------------------------

  datatype Stats = Stats(processed: nat, created: nat, skipped: nat, unmapped: nat, samples: seq<nat>)

  const NO_STATS := Stats(0, 0, 0, 0, [])

  function Row(ledger: Ledger, tx: Tx, dry: bool): Ledger {
    if Mapped(tx) && LegacyTx(tx.id) !in ledger && !dry then ledger[LegacyTx(tx.id) := Convert(tx)] else ledger
  }

  function Count(s: Stats, ledger: Ledger, tx: Tx): Stats {
    if !Mapped(tx) then
      s.(processed := s.processed + 1, unmapped := s.unmapped + 1,
         samples := if |s.samples| < 10 then s.samples + [tx.id] else s.samples)
    else if LegacyTx(tx.id) in ledger then s.(processed := s.processed + 1, skipped := s.skipped + 1)
    else s.(processed := s.processed + 1, created := s.created + 1)
  }

  /** The ledger after the rows of txs. */
  function Filled(ledger: Ledger, txs: seq<Tx>, dry: bool): Ledger
    decreases |txs|
  {
    if txs == [] then ledger else Filled(Row(ledger, txs[0], dry), txs[1..], dry)
  }

  function Counted(s: Stats, ledger: Ledger, txs: seq<Tx>, dry: bool): Stats
    decreases |txs|
  {
    if txs == [] then s else Counted(Count(s, ledger, txs[0]), Row(ledger, txs[0], dry), txs[1..], dry)
  }

  ghost predicate UniqueIds(txs: seq<Tx>) {
    txs != [] ==> (forall t :: t in txs[1..] ==> t.id != txs[0].id) && UniqueIds(txs[1..])
  }

  /** What a full run leaves: every entry there was, and a converted entry for each mapped row that had none. */
  lemma {:induction false} FilledExactly(ledger: Ledger, txs: seq<Tx>)
    requires UniqueIds(txs)
    ensures forall e :: e in ledger ==> e in Filled(ledger, txs, false) && Filled(ledger, txs, false)[e] == ledger[e]
    ensures forall t :: t in txs && Mapped(t) && LegacyTx(t.id) !in ledger ==>
              LegacyTx(t.id) in Filled(ledger, txs, false) && Filled(ledger, txs, false)[LegacyTx(t.id)] == Convert(t)
    ensures forall e :: e in Filled(ledger, txs, false) && e !in ledger ==>
              exists t :: t in txs && Mapped(t) && e == LegacyTx(t.id)
    decreases |txs|
  {
    if txs != [] {
      var next := Row(ledger, txs[0], false);
      FilledExactly(next, txs[1..]);
      assert txs == [txs[0]] + txs[1..];
      forall e | e in Filled(ledger, txs, false) && e !in ledger ensures exists t :: t in txs && Mapped(t) && e == LegacyTx(t.id) {
        if e in next {
          assert txs[0] in txs;
        } else {
          var t :| t in txs[1..] && Mapped(t) && e == LegacyTx(t.id);
          assert t in txs;
        }
      }
    }
  }

  ghost predicate Within(a: Ledger, b: Ledger) {
    forall e :: e in a ==> e in b && a[e] == b[e]
  }

  /** From any ledger between the start and the goal, a run reaches the goal. */
  lemma {:induction false} AnyPartReachesGoal(ledger: Ledger, part: Ledger, txs: seq<Tx>)
    requires UniqueIds(txs) && Within(ledger, part) && Within(part, Filled(ledger, txs, false))
    ensures Filled(part, txs, false) == Filled(ledger, txs, false)
  {
    FilledExactly(ledger, txs);
    FilledExactly(part, txs);
    var goal, reached := Filled(ledger, txs, false), Filled(part, txs, false);
    forall e | e in goal ensures e in reached && reached[e] == goal[e] {
      if e !in part {
        var t :| t in txs && Mapped(t) && e == LegacyTx(t.id);
      }
    }
    forall e | e in reached ensures e in goal {
      if e !in part && e !in ledger {
        var t :| t in txs && Mapped(t) && e == LegacyTx(t.id);
      }
    }
  }

  lemma {:induction false} PrefixIsPart(ledger: Ledger, txs: seq<Tx>, n: nat)
    requires UniqueIds(txs) && n <= |txs|
    ensures UniqueIds(txs[..n])
    ensures Within(ledger, Filled(ledger, txs[..n], false))
    ensures Within(Filled(ledger, txs[..n], false), Filled(ledger, txs, false))
    decreases |txs|
  {
    if n == 0 {
      FilledExactly(ledger, txs);
    } else {
      var next := Row(ledger, txs[0], false);
      assert txs[..n][1..] == txs[1..][..n - 1];
      assert txs[..n][0] == txs[0];
      PrefixIsPart(next, txs[1..], n - 1);
      assert forall t :: t in txs[1..][..n - 1] ==> t in txs[1..];
    }
  }

  /** Runs that stop after so many rows, one after another. */
  function Stopped(ledger: Ledger, txs: seq<Tx>, stops: seq<nat>): Ledger
    requires forall k :: 0 <= k < |stops| ==> stops[k] <= |txs|
  {
    if stops == [] then ledger else Filled(Stopped(ledger, txs, stops[..|stops| - 1]), txs[..stops[|stops| - 1]], false)
  }

  /** Any number of interrupted runs, then one to the end, leave the ledger of a single run. */
  lemma {:induction false} RestartsReachGoal(ledger: Ledger, txs: seq<Tx>, stops: seq<nat>)
    requires UniqueIds(txs) && forall k :: 0 <= k < |stops| ==> stops[k] <= |txs|
    ensures Within(ledger, Stopped(ledger, txs, stops)) && Within(Stopped(ledger, txs, stops), Filled(ledger, txs, false))
    ensures Filled(Stopped(ledger, txs, stops), txs, false) == Filled(ledger, txs, false)
  {
    if stops == [] {
      FilledExactly(ledger, txs);
    } else {
      var n := stops[|stops| - 1];
      var before := Stopped(ledger, txs, stops[..|stops| - 1]);
      RestartsReachGoal(ledger, txs, stops[..|stops| - 1]);
      PrefixIsPart(before, txs, n);
      AnyPartReachesGoal(ledger, Filled(before, txs[..n], false), txs);
    }
  }

  // ---------------------------------------------------------------------------
  // The counters
  // ---------------------------------------------------------------------------

  /** Each row is counted once. */
  lemma {:induction false} EveryRowCounted(s: Stats, ledger: Ledger, txs: seq<Tx>, dry: bool)
    requires s.processed == s.created + s.skipped + s.unmapped && |s.samples| <= 10
    ensures var t := Counted(s, ledger, txs, dry);
      && t.processed == t.created + t.skipped + t.unmapped
      && t.processed == s.processed + |txs|
      && |t.samples| <= 10
    decreases |txs|
  {
    if txs != [] { EveryRowCounted(Count(s, ledger, txs[0]), Row(ledger, txs[0], dry), txs[1..], dry); }
  }

  /** A run over rows that are all there creates nothing. */
  lemma {:induction false} NothingLeft(s: Stats, ledger: Ledger, txs: seq<Tx>)
    requires forall t :: t in txs && Mapped(t) ==> LegacyTx(t.id) in ledger
    ensures Counted(s, ledger, txs, false).created == s.created && Filled(ledger, txs, false) == ledger
    decreases |txs|
  {
    if txs != [] {
      assert txs[0] in txs;
      NothingLeft(Count(s, ledger, txs[0]), ledger, txs[1..]);
    }
  }

  /** Running again after a full run creates nothing. */
  lemma SecondRunCreatesNothing(ledger: Ledger, txs: seq<Tx>)
    requires UniqueIds(txs)
    ensures var goal := Filled(ledger, txs, false);
      Counted(NO_STATS, goal, txs, false).created == 0 && Filled(goal, txs, false) == goal
  {
    FilledExactly(ledger, txs);
    NothingLeft(NO_STATS, Filled(ledger, txs, false), txs);
  }

  /** A dry run counts what a real run would, and inserts nothing. */
  lemma {:induction false} DryRunForetells(s: Stats, dryLedger: Ledger, ledger: Ledger, txs: seq<Tx>)
    requires UniqueIds(txs)
    requires forall t :: t in txs ==> (LegacyTx(t.id) in dryLedger <==> LegacyTx(t.id) in ledger)
    ensures Counted(s, dryLedger, txs, true) == Counted(s, ledger, txs, false)
    ensures Filled(dryLedger, txs, true) == dryLedger
    decreases |txs|
  {
    if txs != [] {
      assert txs[0] in txs;
      assert forall t :: t in txs[1..] ==> t in txs;
      DryRunForetells(Count(s, ledger, txs[0]), dryLedger, Row(ledger, txs[0], false), txs[1..]);
    }
  }

  /** The counter says how many entries were added. */
  lemma {:induction false} CreatedIsGrowth(s: Stats, ledger: Ledger, txs: seq<Tx>)
    ensures Counted(s, ledger, txs, false).created - s.created == |Filled(ledger, txs, false).Keys| - |ledger.Keys|
    decreases |txs|
  {
    if txs != [] {
      var next := Row(ledger, txs[0], false);
      CreatedIsGrowth(Count(s, ledger, txs[0]), next, txs[1..]);
      if next != ledger { assert next.Keys == ledger.Keys + {LegacyTx(txs[0].id)}; }
    }
  }

  // ---------------------------------------------------------------------------
  // The script
  // ---------------------------------------------------------------------------

  class Script {
    var ledger: Ledger

    constructor (ledger: Ledger)
      ensures this.ledger == ledger
    {
      this.ledger := ledger;
    }

    method One(tx: Tx, before: Stats, dry: bool) returns (stats: Stats)
      modifies this
      ensures ledger == Row(old(ledger), tx, dry)
      ensures stats == Count(before, old(ledger), tx)
    {
      stats := before.(processed := before.processed + 1);
      if !Mapped(tx) {
        stats := stats.(unmapped := stats.unmapped + 1);
        if |stats.samples| < 10 { stats := stats.(samples := stats.samples + [tx.id]); }
      } else if LegacyTx(tx.id) in ledger {
        stats := stats.(skipped := stats.skipped + 1);
      } else {
        if !dry { ledger := ledger[LegacyTx(tx.id) := Convert(tx)]; }
        stats := stats.(created := stats.created + 1);
      }
    }

    /** The cursor loop of main. */
    method Backfill(txs: seq<Tx>, dry: bool) returns (stats: Stats)
      modifies this
      ensures ledger == Filled(old(ledger), txs, dry)
      ensures stats == Counted(NO_STATS, old(ledger), txs, dry)
      ensures stats.processed == |txs| == stats.created + stats.skipped + stats.unmapped
    {
      hide Row, Count;
      EveryRowCounted(NO_STATS, ledger, txs, dry);
      stats := NO_STATS;
      var i := 0;
      while i < |txs|
        invariant 0 <= i <= |txs|
        invariant Filled(ledger, txs[i..], dry) == Filled(old(ledger), txs, dry)
        invariant Counted(stats, ledger, txs[i..], dry) == Counted(NO_STATS, old(ledger), txs, dry)
      {
        assert txs[i..][1..] == txs[i + 1..];
        stats := One(txs[i], stats, dry);
        i := i + 1;
      }
    }
  }
}
