/**
 * The customer's wallet history (customerAuthController.js getCustomerTransactions): ledger
 * entries, legacy transactions and orders are merged, records that share a key are shown
 * once, and the list is sorted by date and paged. Amounts are in paise and shown in whole
 * rupees; dates are numbers; titles play no part.
 */
module WalletHistory {
  import opened Wrappers
  import opened Paging
  import opened Text

  // ---------------------------------------------------------------------------
  // The three sources
  // ---------------------------------------------------------------------------

  /** `order` and `ref` are empty when the entry has none; then its own id is its reference. */
  datatype Entry = Entry(id: string, credit: bool, amount: int, date: int, ref: string, order: string)

  datatype Item = Item(id: string, price: nat, quantity: nat, returned: bool, returnedAt: Option<int>)

  datatype Order = Order(id: string, orderId: string, createdAt: int, updatedAt: Option<int>,
                         items: seq<Item>, wallet: bool, paid: int)

  /** A line of the history. */
  datatype Record = Record(credit: bool, amount: nat, date: int, ref: string, order: string)

  function Rupees(paise: int): nat {
    ((if paise < 0 then -paise else paise) + 50) / 100
  }

  function OfEntry(e: Entry): Record {
    Record(e.credit, Rupees(e.amount), e.date, if e.ref != "" then e.ref else e.id, e.order)
  }

  function OrderName(o: Order): string {
    if o.orderId != "" then o.orderId else o.id
  }

  function Refund(o: Order, i: Item): Record {
    Record(true, Rupees(i.price * i.quantity), i.returnedAt.GetOr(o.updatedAt.GetOr(o.createdAt)),
           "REFUND-" + o.id + "-" + i.id, OrderName(o))
  }

  function Payment(o: Order): Record {
    Record(false, Rupees(o.paid), o.createdAt, "WALLET-ORDER-" + o.id, OrderName(o))
  }

  predicate PaysByWallet(o: Order) {
    o.wallet && o.paid > 0 && Rupees(o.paid) > 0
  }

  function OfEntries(es: seq<Entry>): seq<Record> {
    if es == [] then [] else [OfEntry(es[0])] + OfEntries(es[1..])
  }

  function Refunds(o: Order, items: seq<Item>): seq<Record> {
    if items == [] then [] else if items[0].returned then [Refund(o, items[0])] + Refunds(o, items[1..]) else Refunds(o, items[1..])
  }

  function OfOrder(o: Order): seq<Record> {
    Refunds(o, o.items) + if PaysByWallet(o) then [Payment(o)] else []
  }

  function OfOrders(os: seq<Order>): seq<Record> {
    if os == [] then [] else OfOrder(os[0]) + OfOrders(os[1..])
  }

  /** Every record the three sources offer, in the order they are looked at. */
  function Offered(ledger: seq<Entry>, legacy: seq<Entry>, orders: seq<Order>): seq<Record> {
    OfEntries(ledger) + OfEntries(legacy) + OfOrders(orders)
  }

  // ---------------------------------------------------------------------------
  // Keys
  // ---------------------------------------------------------------------------

  /** A dedupe key: the program writes these as strings with different prefixes. */
  datatype Key = ByRef(ref: string) | ByOrder(order: string, credit: bool, amount: nat)

  function Keys(r: Record): set<Key> {
    (if r.ref != "" then {ByRef(Trim(r.ref))} else {})
    + (if r.order != "" && r.amount != 0 then {ByOrder(Trim(r.order), r.credit, r.amount)} else {})
  }

  function AllKeys(list: seq<Record>): set<Key> {
    if list == [] then {} else AllKeys(list[..|list| - 1]) + Keys(list[|list| - 1])
  }

  /** The records shown: each that shares no key with one shown before it. */
  function Shown(offered: seq<Record>): seq<Record> {
    if offered == [] then []
    else
      var before := Shown(offered[..|offered| - 1]);
      var r := offered[|offered| - 1];
      if Keys(r) !! AllKeys(before) then before + [r] else before
  }

  lemma {:induction false} KeyHasOwner(list: seq<Record>, k: Key)
    ensures k in AllKeys(list) <==> exists i :: 0 <= i < |list| && k in Keys(list[i])
  {
    hide Keys;
    if list != [] {
      var init := list[..|list| - 1];
      KeyHasOwner(init, k);
      assert forall i :: 0 <= i < |init| ==> init[i] == list[i];
    }
  }

  ghost predicate Disjoint(list: seq<Record>) {
    forall i, j :: 0 <= i < j < |list| ==> Keys(list[i]) !! Keys(list[j])
  }

  /** No two records shown share a key. */
  lemma {:induction false} ShownDisjoint(offered: seq<Record>)
    ensures Disjoint(Shown(offered))
  {
    if offered != [] {
      var before := Shown(offered[..|offered| - 1]);
      ShownDisjoint(offered[..|offered| - 1]);
      forall i | 0 <= i < |before| ensures Keys(before[i]) <= AllKeys(before) {
        forall k | k in Keys(before[i]) ensures k in AllKeys(before) { KeyHasOwner(before, k); }
      }
    }
  }

  lemma {:induction false} ShownGrows(offered: seq<Record>, n: nat)
    requires n <= |offered|
    ensures Shown(offered[..n]) <= Shown(offered)
  {
    if n < |offered| {
      ShownGrows(offered[..|offered| - 1], n);
      assert offered[..|offered| - 1][..n] == offered[..n];
    } else {
      assert offered[..n] == offered;
    }
  }

  /** Every record offered is shown, or shares a key with one that was shown before it came. */
  lemma {:induction false} NothingMissing(offered: seq<Record>, n: nat)
    requires n < |offered|
    ensures var before := Shown(offered[..n]);
      && before <= Shown(offered)
      && (if forall i :: 0 <= i < |before| ==> Keys(before[i]) !! Keys(offered[n])
          then Shown(offered[..n + 1]) == before + [offered[n]] && Shown(offered[..n + 1]) <= Shown(offered)
          else Shown(offered[..n + 1]) == before)
  {
    var before := Shown(offered[..n]);
    ShownGrows(offered, n);
    ShownGrows(offered, n + 1);
    assert offered[..n + 1][..n] == offered[..n];
    if Keys(offered[n]) !! AllKeys(before) {
      forall i | 0 <= i < |before| ensures Keys(before[i]) !! Keys(offered[n]) {
        forall k | k in Keys(before[i]) ensures k !in Keys(offered[n]) { KeyHasOwner(before, k); }
      }
    } else {
      var k :| k in Keys(offered[n]) && k in AllKeys(before);
      KeyHasOwner(before, k);
    }
  }

  lemma OfferedPair(o: Order, a: Item, b: Item)
    requires o.items == [a, b] && a.returned && b.returned && !o.wallet
    requires Rupees(a.price * a.quantity) == Rupees(b.price * b.quantity) > 0
    ensures Offered([], [], [o]) == [Refund(o, a), Refund(o, b)]
  {
    assert [a, b][1..] == [b] && [b][1..] == [];
    assert Refunds(o, [b]) == [Refund(o, b)];
    assert Refunds(o, [a, b]) == [Refund(o, a), Refund(o, b)];
    hide Refunds, Rupees;
    assert [o][1..] == [];
    assert OfOrders([o]) == OfOrder(o);
  }

  /** Two returned items of one order at the same refund are shown as one: their order keys are equal. */
  lemma EqualRefundsShownOnce(o: Order, a: Item, b: Item)
    requires o.items == [a, b] && a.returned && b.returned && !o.wallet
    requires Rupees(a.price * a.quantity) == Rupees(b.price * b.quantity) > 0 && OrderName(o) != ""
    ensures Offered([], [], [o]) == [Refund(o, a), Refund(o, b)]
    ensures Shown(Offered([], [], [o])) == [Refund(o, a)]
  {
    OfferedPair(o, a, b);
    hide Offered, OfOrders, OfOrder, Refunds;
    var list := [Refund(o, a), Refund(o, b)];
    assert list[..1] == [Refund(o, a)] && list[..1][..0] == [];
    assert Shown(list[..1]) == [Refund(o, a)];
    assert AllKeys([Refund(o, a)]) == AllKeys([]) + Keys(Refund(o, a)) by { assert [Refund(o, a)][..0] == []; }
    assert ByOrder(Trim(OrderName(o)), true, Rupees(a.price * a.quantity)) in Keys(Refund(o, a)) * Keys(Refund(o, b));
  }

  // ---------------------------------------------------------------------------
  // Newest first
  // ---------------------------------------------------------------------------

  function Insert(r: Record, s: seq<Record>): seq<Record> {
    if s == [] || r.date >= s[0].date then [r] + s else [s[0]] + Insert(r, s[1..])
  }

  /** The list sorted by date, newest first, records of one date in their old order. */
  function Newest(s: seq<Record>): seq<Record> {
    if s == [] then [] else Insert(s[0], Newest(s[1..]))
  }

  ghost predicate Descending(s: seq<Record>) {
    s != [] ==> (forall r :: r in s[1..] ==> s[0].date >= r.date) && Descending(s[1..])
  }

  function OnDate(s: seq<Record>, date: int): seq<Record> {
    if s == [] then [] else if s[0].date == date then [s[0]] + OnDate(s[1..], date) else OnDate(s[1..], date)
  }

  lemma {:induction false} InsertMembers(r: Record, s: seq<Record>)
    ensures forall q :: q in Insert(r, s) <==> q == r || q in s
    ensures multiset(Insert(r, s)) == multiset(s) + multiset{r}
  {
    if s != [] && r.date < s[0].date {
      InsertMembers(r, s[1..]);
      assert s == [s[0]] + s[1..];
    }
  }

  lemma {:induction false} InsertDescends(r: Record, s: seq<Record>)
    requires Descending(s)
    ensures Descending(Insert(r, s))
  {
    if s == [] || r.date >= s[0].date {
      assert ([r] + s)[1..] == s;
    } else {
      InsertDescends(r, s[1..]);
      InsertMembers(r, s[1..]);
      assert ([s[0]] + Insert(r, s[1..]))[1..] == Insert(r, s[1..]);
    }
  }

  lemma {:induction false} InsertNewest(r: Record, s: seq<Record>, date: int)
    ensures OnDate(Insert(r, s), date) == if r.date == date then [r] + OnDate(s, date) else OnDate(s, date)
  {
    if s == [] || r.date >= s[0].date {
      assert ([r] + s)[1..] == s;
    } else {
      InsertNewest(r, s[1..], date);
      assert ([s[0]] + Insert(r, s[1..]))[1..] == Insert(r, s[1..]);
    }
  }

  /** Sorting permutes the list, puts newer dates first and keeps the order within a date. */
  lemma {:induction false} NewestSorts(s: seq<Record>, date: int)
    ensures Descending(Newest(s))
    ensures multiset(Newest(s)) == multiset(s)
    ensures OnDate(Newest(s), date) == OnDate(s, date)
  {
    if s != [] {
      hide Insert;
      NewestSorts(s[1..], date);
      InsertNewest(s[0], Newest(s[1..]), date);
      InsertDescends(s[0], Newest(s[1..]));
      InsertMembers(s[0], Newest(s[1..]));
      assert s == [s[0]] + s[1..];
    }
  }

  // ---------------------------------------------------------------------------
  // The handler
  // ---------------------------------------------------------------------------

  function PerPage(limit: int): (n: nat)
    ensures 1 <= n <= 100
  {
    Min(100, Max(1, limit))
  }

  function Skip(page: int, limit: int): nat {
    SkipIsNat(Max(1, page) - 1, PerPage(limit));
    (Max(1, page) - 1) * PerPage(limit)
  }

  lemma SkipIsNat(n: nat, perPage: nat)
    ensures n * perPage >= 0
  {
  }

  /** The whole list, newest first. */
  function History(ledger: seq<Entry>, legacy: seq<Entry>, orders: seq<Order>): seq<Record> {
    Newest(Shown(Offered(ledger, legacy, orders)))
  }

  lemma {:induction false} ShownMore(offered: seq<Record>, r: Record)
    ensures Shown(offered + [r]) == if Keys(r) !! AllKeys(Shown(offered)) then Shown(offered) + [r] else Shown(offered)
  {
  }

  lemma AllKeysMore(list: seq<Record>, r: Record)
    ensures AllKeys(list + [r]) == AllKeys(list) + Keys(r)
  {
  }

  /** The merged list while it is built. */
  class Merge {
    var combined: seq<Record>
    var seenKeys: set<Key>
    ghost var offered: seq<Record>

    ghost predicate Valid()
      reads this
    {
      combined == Shown(offered) && seenKeys == AllKeys(combined)
    }

    constructor ()
      ensures Valid() && offered == []
    {
      combined, seenKeys, offered := [], {}, [];
    }

    /** isDuplicate, registerKeys and push. */
    method Offer(r: Record)
      requires Valid()
      modifies this
      ensures Valid() && offered == old(offered) + [r]
    {
      ShownMore(offered, r);
      AllKeysMore(combined, r);
      offered := offered + [r];
      if Keys(r) * seenKeys == {} {
        combined, seenKeys := combined + [r], seenKeys + Keys(r);
      }
    }

    method TakeEntries(es: seq<Entry>)
      requires Valid()
      modifies this
      ensures Valid() && offered == old(offered) + OfEntries(es)
    {
      hide Keys, AllKeys, Shown, OfEntry;
      var i := 0;
      while i < |es|
        invariant 0 <= i <= |es| && Valid()
        invariant offered + OfEntries(es[i..]) == old(offered) + OfEntries(es)
      {
        assert es[i..][0] == es[i] && es[i..][1..] == es[i + 1..];
        Offer(OfEntry(es[i]));
        i := i + 1;
      }
    }

    method TakeRefunds(o: Order)
      requires Valid()
      modifies this
      ensures Valid() && offered == old(offered) + Refunds(o, o.items)
    {
      hide Keys, AllKeys, Shown, Refund;
      var i := 0;
      while i < |o.items|
        invariant 0 <= i <= |o.items| && Valid()
        invariant offered + Refunds(o, o.items[i..]) == old(offered) + Refunds(o, o.items)
      {
        assert o.items[i..][0] == o.items[i] && o.items[i..][1..] == o.items[i + 1..];
        if o.items[i].returned { Offer(Refund(o, o.items[i])); }
        i := i + 1;
      }
    }

    method TakeOrders(os: seq<Order>)
      requires Valid()
      modifies this
      ensures Valid() && offered == old(offered) + OfOrders(os)
    {
      hide Keys, AllKeys, Shown, Refunds, PaysByWallet, Payment;
      var i := 0;
      while i < |os|
        invariant 0 <= i <= |os| && Valid()
        invariant offered + OfOrders(os[i..]) == old(offered) + OfOrders(os)
      {
        assert os[i..][0] == os[i] && os[i..][1..] == os[i + 1..];
        TakeRefunds(os[i]);
        if PaysByWallet(os[i]) { Offer(Payment(os[i])); }
        i := i + 1;
      }
    }
  }

  /** combinedList.sort, as an insertion from the back. */
  method SortByDate(list: seq<Record>) returns (sorted: seq<Record>)
    ensures sorted == Newest(list)
  {
    sorted := [];
    var i := |list|;
    while i > 0
      invariant 0 <= i <= |list| && sorted == Newest(list[i..])
    {
      i := i - 1;
      sorted := Insert(list[i], sorted);
    }
  }

  method GetTransactions(ledger: seq<Entry>, legacy: seq<Entry>, orders: seq<Order>, page: int, limit: int)
    returns (items: seq<Record>, total: nat, totalPages: nat)
    ensures items == Slice(History(ledger, legacy, orders), Skip(page, limit), PerPage(limit))
    ensures total == |History(ledger, legacy, orders)| && totalPages == PageCount(total, PerPage(limit))
  {
    hide Shown, AllKeys, OfEntries, OfOrders, Newest, PageCount, PerPage, Skip;
    var merge := new Merge();
    merge.TakeEntries(ledger);
    merge.TakeEntries(legacy);
    merge.TakeOrders(orders);
    assert merge.offered == Offered(ledger, legacy, orders);
    var list := SortByDate(merge.combined);
    total, totalPages := |list|, PageCount(|list|, PerPage(limit));
    items := Slice(list, Skip(page, limit), PerPage(limit));
  }

  /** All the pages together show each record of the merged list once, newest first. */
  lemma PagesShowAll(ledger: seq<Entry>, legacy: seq<Entry>, orders: seq<Order>, limit: int)
    ensures var shown := Shown(Offered(ledger, legacy, orders));
            var list := History(ledger, legacy, orders);
            var all := FirstPages(list, PerPage(limit), PageCount(|list|, PerPage(limit)));
      multiset(all) == multiset(shown) && Descending(all) && Disjoint(shown)
  {
    var shown := Shown(Offered(ledger, legacy, orders));
    PagesPartition(Newest(shown), PerPage(limit));
    NewestSorts(shown, 0);
    ShownDisjoint(Offered(ledger, legacy, orders));
  }
}
