/**
 * Who may rate what (productRatingController.js): the three places that decide it — the
 * eligibility list of an order, the submission itself, and the item a product page offers
 * for review — agree. One customer's orders and ratings; times in milliseconds.
 */
module ReviewEligibility {
  import opened Wrappers

  /** `returned` is a return status of completed or approved. */
  datatype Item = Item(id: nat, product: nat, returned: bool)

  datatype Order = Order(id: nat, delivered: bool, deliveredAt: int, items: seq<Item>)

  /** A stored rating of this customer. */
  datatype Row = Row(order: nat, item: nat, product: nat)

  const WINDOW := 7 * 24 * 60 * 60 * 1000

  predicate InWindow(o: Order, now: int) {
    now - o.deliveredAt <= WINDOW
  }

  // ---------------------------------------------------------------------------
  // The three decisions
  // ---------------------------------------------------------------------------

  datatype Answer = Unknown | NotDelivered | WindowOver | Returned | AlreadyRated | Accepted

  function HasItem(o: Order, item: nat): bool {
    exists i :: i in o.items && i.id == item
  }

  /** The position of the first order holding the item, or |orders|. */
  function OrderOf(orders: seq<Order>, item: nat): (k: nat)
    ensures k <= |orders|
    ensures k < |orders| ==> HasItem(orders[k], item)
    ensures forall j :: 0 <= j < k ==> !HasItem(orders[j], item)
  {
    if orders == [] || HasItem(orders[0], item) then 0 else 1 + OrderOf(orders[1..], item)
  }

  function ItemAt(items: seq<Item>, item: nat): (k: nat)
    requires exists i :: i in items && i.id == item
    ensures k < |items| && items[k].id == item
  {
    if items[0].id == item then 0 else 1 + ItemAt(items[1..], item)
  }

  /** submitProductRating, up to the write. */
  function Submit(orders: seq<Order>, rows: seq<Row>, item: nat, now: int): Answer {
    var k := OrderOf(orders, item);
    if k == |orders| then Unknown
    else if !orders[k].delivered then NotDelivered
    else if !InWindow(orders[k], now) then WindowOver
    else if orders[k].items[ItemAt(orders[k].items, item)].returned then Returned
    else if exists r :: r in rows && r.item == item then AlreadyRated
    else Accepted
  }

  /** getEligibility: the ratings are looked up by order. */
  predicate Eligible(o: Order, i: Item, rows: seq<Row>, now: int) {
    && o.delivered && InWindow(o, now) && !i.returned
    && !exists r :: r in rows && r.order == o.id && r.item == i.id
  }

  /** getProductReviewState: the ratings are looked up by product. */
  predicate Offers(o: Order, i: Item, product: nat, rows: seq<Row>, now: int) {
    && o.delivered && InWindow(o, now) && i.product == product && !i.returned
    && !exists r :: r in rows && r.product == product && r.item == i.id
  }

  // ---------------------------------------------------------------------------
  // They agree
  // ---------------------------------------------------------------------------

  /** Item ids are unique over the orders, order ids are unique, and each rating names its item's order and product. */
  ghost predicate Sound(orders: seq<Order>, rows: seq<Row>) {
    && (forall j, k :: 0 <= j < k < |orders| ==> orders[j].id != orders[k].id)
    && (forall j, k, x, y ::
          0 <= j < |orders| && 0 <= k < |orders| && 0 <= x < |orders[j].items| && 0 <= y < |orders[k].items| ==>
            orders[j].items[x].id == orders[k].items[y].id ==> j == k && x == y)
    && (forall r, k, x ::
          r in rows && 0 <= k < |orders| && 0 <= x < |orders[k].items| ==>
            orders[k].items[x].id == r.item ==> r.order == orders[k].id && r.product == orders[k].items[x].product)
  }

  /** An item is listed as eligible exactly when submitting it would be accepted. */
  lemma EligibleIffAccepted(orders: seq<Order>, rows: seq<Row>, k: nat, x: nat, now: int)
    requires Sound(orders, rows) && k < |orders| && x < |orders[k].items|
    ensures Eligible(orders[k], orders[k].items[x], rows, now)
       <==> Submit(orders, rows, orders[k].items[x].id, now) == Accepted
  {
  }

  lemma OfferedIffAccepted(orders: seq<Order>, rows: seq<Row>, k: nat, x: nat, product: nat, now: int)
    requires Sound(orders, rows) && k < |orders| && x < |orders[k].items|
    ensures Offers(orders[k], orders[k].items[x], product, rows, now)
       <==> orders[k].items[x].product == product && Submit(orders, rows, orders[k].items[x].id, now) == Accepted
  {
  }

  /** Storing an accepted rating keeps the ratings sound, and the item cannot be rated again. */
  lemma RatedOnce(orders: seq<Order>, rows: seq<Row>, item: nat, now: int, later: int)
    requires Sound(orders, rows) && Submit(orders, rows, item, now) == Accepted
    ensures var o := orders[OrderOf(orders, item)];
            var after := rows + [Row(o.id, item, o.items[ItemAt(o.items, item)].product)];
      Sound(orders, after) && Submit(orders, after, item, later) != Accepted
  {
  }

  // ---------------------------------------------------------------------------
  // The item offered for review
  // ---------------------------------------------------------------------------

  /**
   * getProductReviewState over the orders, newest first: the item it offers is one a
   * submission would accept, from the newest order that has one, and it offers none only
   * when no item of the product would be accepted.
   */
  method PendingItem(orders: seq<Order>, rows: seq<Row>, product: nat, now: int) returns (pending: Option<nat>)
    requires Sound(orders, rows)
    ensures pending.Some? ==>
              Submit(orders, rows, pending.value, now) == Accepted
              && exists k, x :: 0 <= k < |orders| && 0 <= x < |orders[k].items| && orders[k].items[x].id == pending.value
                   && orders[k].items[x].product == product
                   && NoneBefore(orders, rows, product, now, k)
    ensures pending.None? ==> NoneBefore(orders, rows, product, now, |orders|)
  {
    var k := 0;
    while k < |orders|
      invariant 0 <= k <= |orders|
      invariant NoneBefore(orders, rows, product, now, k)
    {
      if orders[k].delivered && InWindow(orders[k], now) {
        var x := 0;
        while x < |orders[k].items| && !Offers(orders[k], orders[k].items[x], product, rows, now)
          invariant 0 <= x <= |orders[k].items|
          invariant forall y :: 0 <= y < x ==> !Offers(orders[k], orders[k].items[y], product, rows, now)
        {
          x := x + 1;
        }
        if x < |orders[k].items| {
          OfferedIffAccepted(orders, rows, k, x, product, now);
          return Some(orders[k].items[x].id);
        }
      }
      NothingOffered(orders, rows, product, now, k);
      k := k + 1;
    }
    pending := None;
  }

  /** No item of the product in the first n orders would be accepted. */
  ghost predicate NoneBefore(orders: seq<Order>, rows: seq<Row>, product: nat, now: int, n: nat)
    requires n <= |orders|
  {
    forall j, y :: 0 <= j < n && 0 <= y < |orders[j].items| && orders[j].items[y].product == product
      ==> Submit(orders, rows, orders[j].items[y].id, now) != Accepted
  }

  lemma NothingOffered(orders: seq<Order>, rows: seq<Row>, product: nat, now: int, k: nat)
    requires Sound(orders, rows) && k < |orders| && NoneBefore(orders, rows, product, now, k)
    requires forall y :: 0 <= y < |orders[k].items| ==> !Offers(orders[k], orders[k].items[y], product, rows, now)
    ensures NoneBefore(orders, rows, product, now, k + 1)
  {
  }
}
