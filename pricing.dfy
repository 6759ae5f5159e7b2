/** The expression-level parts of checkout over the snapshot: the order total,
    the order items copied from the rows, and the payment line items; plus the
    reading of the `order_items` table by order id. Prices are whole cents, so
    the total is exact and the gateway's `unit_amount` is the price itself. */
module Pricing {
  import opened Records
  import opened CartTable

  function Cost(r: SnapshotRow): int
  {
    r.quantity * r.price
  }

  /** No row has a negative quantity or price. */
  predicate NonNegativeRows(rows: seq<SnapshotRow>)
  {
    forall i :: 0 <= i < |rows| ==> rows[i].quantity >= 0 && rows[i].price >= 0
  }

  /** The order total: the left-to-right sum of quantity times price. */
  function Total(rows: seq<SnapshotRow>): int
  {
    if rows == [] then 0 else Total(rows[..|rows| - 1]) + Cost(rows[|rows| - 1])
  }

  /** No quantity or price below zero gives a total of at least zero. */
  lemma {:induction false} TotalNonNegative(rows: seq<SnapshotRow>)
    requires NonNegativeRows(rows)
    ensures Total(rows) >= 0
    decreases |rows|
  {
    if rows != [] {
      var r := rows[|rows| - 1];
      assert r.quantity >= 0 && r.price >= 0;
      assert NonNegativeRows(rows[..|rows| - 1]);
      TotalNonNegative(rows[..|rows| - 1]);
    }
  }

  lemma {:induction false} TotalAppend(a: seq<SnapshotRow>, b: seq<SnapshotRow>)
    ensures Total(a + b) == Total(a) + Total(b)
    decreases |b|
  {
    if b == [] {
      assert a + b == a;
    } else {
      var b' := b[..|b| - 1];
      assert (a + b)[..|a + b| - 1] == a + b';
      TotalAppend(a, b');
    }
  }

  /** The total does not depend on the order of the rows. */
  lemma {:induction false} TotalPermutation(a: seq<SnapshotRow>, b: seq<SnapshotRow>)
    requires multiset(a) == multiset(b)
    ensures Total(a) == Total(b)
    decreases |a|
  {
    if a == [] {
      assert |b| == |multiset(b)| == 0;
    } else {
      var x := a[|a| - 1];
      var a' := a[..|a| - 1];
      assert a == a' + [x];
      assert x in multiset(b);
      var j :| 0 <= j < |b| && b[j] == x;
      var b' := b[..j] + b[j + 1..];
      assert b == b[..j] + [x] + b[j + 1..];
      assert multiset(a') == multiset(a) - multiset{x};
      assert multiset(b') == multiset(b) - multiset{x};
      TotalPermutation(a', b');
      TotalAppend(b[..j] + [x], b[j + 1..]);
      TotalAppend(b[..j], [x]);
      TotalAppend(b[..j], b[j + 1..]);
      assert Total([x]) == Cost(x) by {
        assert [x][..0] == [];
      }
    }
  }

  /** Whatever order the cart join returns its rows in, checkout computes the
      same total. */
  lemma SnapshotTotalDeterminate(a: seq<SnapshotRow>, b: seq<SnapshotRow>, cart: Cart, products: Catalog, user: int)
    requires IsSnapshot(a, cart, products, user) && IsSnapshot(b, cart, products, user)
    ensures Total(a) == Total(b)
  {
    SnapshotsArePermutations(a, b, cart, products, user);
    TotalPermutation(a, b);
  }

  /** Two of a product at 19.99 and one at 5.00 total 44.98, exactly. */
  lemma TotalExample()
    ensures Total([SnapshotRow(1, 2, "pen", 1999), SnapshotRow(2, 1, "pad", 500)]) == 4498
  {
  }

  // ---------------------------------------------------------------------
  // Order items

  function ItemOf(orderId: nat, r: SnapshotRow): OrderItem
  {
    OrderItem(orderId, r.productId, r.quantity, r.price)
  }

  /** The order items checkout inserts for `rows`, in row order: each carries
      the order's id and its row's product, quantity and price. */
  function ItemsFor(orderId: nat, rows: seq<SnapshotRow>): (items: seq<OrderItem>)
    ensures |items| == |rows|
    ensures forall i :: 0 <= i < |rows| ==>
      items[i].orderId == orderId && items[i].productId == rows[i].productId &&
      items[i].quantity == rows[i].quantity && items[i].price == rows[i].price
  {
    if rows == [] then [] else ItemsFor(orderId, rows[..|rows| - 1]) + [ItemOf(orderId, rows[|rows| - 1])]
  }

  /** The rows of an `order_items` table that belong to order `orderId`, in
      table order. */
  function ItemsOf(table: seq<OrderItem>, orderId: nat): seq<OrderItem>
  {
    if table == [] then []
    else
      var last := table[|table| - 1];
      ItemsOf(table[..|table| - 1], orderId) + (if last.orderId == orderId then [last] else [])
  }

  function ItemsTotal(items: seq<OrderItem>): int
  {
    if items == [] then 0
    else ItemsTotal(items[..|items| - 1]) + items[|items| - 1].quantity * items[|items| - 1].price
  }

  lemma {:induction false} ItemsOfAppend(a: seq<OrderItem>, b: seq<OrderItem>, orderId: nat)
    ensures ItemsOf(a + b, orderId) == ItemsOf(a, orderId) + ItemsOf(b, orderId)
    decreases |b|
  {
    if b == [] {
      assert a + b == a;
    } else {
      var b' := b[..|b| - 1];
      assert (a + b)[..|a + b| - 1] == a + b';
      ItemsOfAppend(a, b', orderId);
    }
  }

  lemma {:induction false} ItemsOfOthers(table: seq<OrderItem>, orderId: nat)
    requires forall i :: 0 <= i < |table| ==> table[i].orderId != orderId
    ensures ItemsOf(table, orderId) == []
    decreases |table|
  {
    if table != [] {
      ItemsOfOthers(table[..|table| - 1], orderId);
    }
  }

  lemma {:induction false} ItemsOfOwn(orderId: nat, rows: seq<SnapshotRow>)
    ensures ItemsOf(ItemsFor(orderId, rows), orderId) == ItemsFor(orderId, rows)
    decreases |rows|
  {
    if rows != [] {
      var items := ItemsFor(orderId, rows);
      assert items[..|items| - 1] == ItemsFor(orderId, rows[..|rows| - 1]);
      ItemsOfOwn(orderId, rows[..|rows| - 1]);
    }
  }

  lemma {:induction false} ItemsTotalFor(orderId: nat, rows: seq<SnapshotRow>)
    ensures ItemsTotal(ItemsFor(orderId, rows)) == Total(rows)
    decreases |rows|
  {
    if rows != [] {
      var items := ItemsFor(orderId, rows);
      assert items[..|items| - 1] == ItemsFor(orderId, rows[..|rows| - 1]);
      ItemsTotalFor(orderId, rows[..|rows| - 1]);
    }
  }

  /** Appending the items of a fresh order to a table that holds none of its
      items: reading the table by that order's id gives exactly those items,
      and they add up to the order total. */
  lemma NewOrderItems(table: seq<OrderItem>, orderId: nat, rows: seq<SnapshotRow>)
    requires forall i :: 0 <= i < |table| ==> table[i].orderId != orderId
    ensures ItemsOf(table + ItemsFor(orderId, rows), orderId) == ItemsFor(orderId, rows)
    ensures ItemsTotal(ItemsOf(table + ItemsFor(orderId, rows), orderId)) == Total(rows)
  {
    ItemsOfAppend(table, ItemsFor(orderId, rows), orderId);
    ItemsOfOthers(table, orderId);
    ItemsOfOwn(orderId, rows);
    ItemsTotalFor(orderId, rows);
  }

  // ---------------------------------------------------------------------
  // Payment line items

  const Currency := "usd"

  function LineItemOf(r: SnapshotRow): LineItem
  {
    LineItem(Currency, r.title, r.price, r.quantity)
  }

  /** The session's line items, in row order: one per row, named by the
      product title, in dollars, with the price in cents as unit amount and
      the row's quantity. */
  function LineItems(rows: seq<SnapshotRow>): (items: seq<LineItem>)
    ensures |items| == |rows|
    ensures forall i :: 0 <= i < |rows| ==>
      items[i].currency == Currency && items[i].name == rows[i].title &&
      items[i].unitAmount == rows[i].price && items[i].quantity == rows[i].quantity
  {
    if rows == [] then [] else LineItems(rows[..|rows| - 1]) + [LineItemOf(rows[|rows| - 1])]
  }

  /** What the gateway charges for a list of line items. */
  function Charged(items: seq<LineItem>): int
  {
    if items == [] then 0
    else Charged(items[..|items| - 1]) + items[|items| - 1].unitAmount * items[|items| - 1].quantity
  }

  /** The payment session charges exactly the order total. */
  lemma {:induction false} ChargedIsTotal(rows: seq<SnapshotRow>)
    ensures Charged(LineItems(rows)) == Total(rows)
    decreases |rows|
  {
    if rows != [] {
      var items := LineItems(rows);
      var r := rows[|rows| - 1];
      assert items[..|items| - 1] == LineItems(rows[..|rows| - 1]);
      assert items[|items| - 1] == LineItemOf(r);
      assert r.price * r.quantity == Cost(r);
      ChargedIsTotal(rows[..|rows| - 1]);
    }
  }
}
