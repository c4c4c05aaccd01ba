/**
 The entities of the inventory application and the order total/status
 calculator of `inventory/models.py`.

 Money is a Django `DecimalField` with two decimal places; here it is an
 integer number of cents, so sums and products are exact as they are with
 `Decimal`.
 */
module Models {

  type ProductId = nat
  type CategoryId = nat
  type CustomerId = nat
  type OrderId = nat

  /** An amount of money in cents. */
  type Cents = int

  /** The choices of `Order.status`. */
  datatype Status = Pending | Processing | Partial | Paid | Delivered | Cancelled

  /** Statuses that `update_status` never recomputes. */
  predicate IsTerminal(s: Status) {
    s == Delivered || s == Cancelled
  }

  /** A product row: its category, unit price and stock on hand. Stock is not
      bounded below, because order creation may drive it negative. */
  datatype Product = Product(category: CategoryId, price: Cents, stock: int)

  /** The binary float that the literal `0.01` denotes is exactly
      5764607523034235 / 2^59, a little more than one cent. */
  const FloatCentNumerator := 5764607523034235
  const FloatCentDenominator := 0x800_0000_0000_0000

  /** `MinValueValidator(0.01)` on `Product.price` as written: the price of
      `c` cents, the Decimal `c / 100`, is refused when it is below the float
      0.01, and Python compares a Decimal with a float exactly. */
  predicate PriceFloorAsWritten(c: Cents) {
    !(c * FloatCentDenominator < 100 * FloatCentNumerator)
  }

  /** The floor with the Decimal `0.01` as its limit. */
  predicate PriceFloorIntended(c: Cents) {
    !(c < 1)
  }

  /** As written, the floor refuses one cent: the smallest price it accepts
      is two cents. */
  lemma PriceFloorRefusesOneCent(c: Cents)
    ensures PriceFloorAsWritten(c) <==> c >= 2
    ensures !PriceFloorAsWritten(1) && PriceFloorAsWritten(2)
  {
  }

  /** With a Decimal limit, exactly the prices of at least one cent pass. */
  lemma PriceFloorAcceptsOneCent(c: Cents)
    ensures PriceFloorIntended(c) <==> c >= 1
    ensures PriceFloorIntended(1) && !PriceFloorIntended(0)
  {
  }

  /** `Product.is_in_stock`. */
  predicate IsInStock(p: Product) {
    p.stock > 0
  }

  /** An order item row. A price of 0 stands for a price not yet set: the
      source tests `not self.price_at_order`, which holds for None and for a
      zero Decimal alike. */
  datatype OrderItem = OrderItem(product: ProductId, quantity: int, priceAtOrder: Cents)

  /** `OrderItem.get_item_total`. */
  function ItemTotal(item: OrderItem): Cents {
    item.quantity * item.priceAtOrder
  }

  /** The sum of the line totals of `items`. */
  function ItemsTotal(items: seq<OrderItem>): Cents {
    if items == [] then 0 else ItemsTotal(items[..|items| - 1]) + ItemTotal(items[|items| - 1])
  }

  /** The total quantity of product `q` among `items`. */
  function QuantityOf(items: seq<OrderItem>, q: ProductId): int {
    if items == [] then 0
    else QuantityOf(items[..|items| - 1], q) + (if items[|items| - 1].product == q then items[|items| - 1].quantity else 0)
  }

  /** The `unique_together = ('order', 'product')` constraint on one order's items. */
  predicate DistinctProducts(items: seq<OrderItem>) {
    forall i, j :: 0 <= i < j < |items| ==> items[i].product != items[j].product
  }

  lemma {:induction false} ItemsTotalAppend(a: seq<OrderItem>, b: seq<OrderItem>)
    ensures ItemsTotal(a + b) == ItemsTotal(a) + ItemsTotal(b)
    decreases |b|
  {
    if b == [] {
      assert a + b == a;
    } else {
      var c := b[..|b| - 1];
      assert (a + b)[..|a + b| - 1] == a + c;
      assert (a + b)[|a + b| - 1] == b[|b| - 1];
      ItemsTotalAppend(a, c);
    }
  }

  /** The total does not depend on the order in which the items are listed
      (the queryset `self.items.all()` has no defined order). */
  lemma {:induction false} ItemsTotalPermutation(a: seq<OrderItem>, b: seq<OrderItem>)
    requires multiset(a) == multiset(b)
    ensures ItemsTotal(a) == ItemsTotal(b)
    decreases |a|
  {
    if a == [] {
      assert |b| == |multiset(b)| == 0;
    } else {
      var n := |a| - 1;
      var x := a[n];
      assert x in multiset(b);
      var k :| 0 <= k < |b| && b[k] == x;
      var rest := b[..k] + b[k + 1..];
      MultisetRemove(a, n);
      assert a[..n] + a[n + 1..] == a[..n];
      MultisetRemove(b, k);
      assert multiset(a[..n]) == multiset(rest);
      ItemsTotalPermutation(a[..n], rest);
      ItemsTotalRemove(b, k);
    }
  }

  /** Taking item `k` out of `s` takes one copy of it out of the multiset. */
  lemma MultisetRemove(s: seq<OrderItem>, k: nat)
    requires k < |s|
    ensures multiset(s[..k] + s[k + 1..]) == multiset(s) - multiset{s[k]}
  {
    assert s == s[..k] + [s[k]] + s[k + 1..];
    assert multiset(s) == multiset(s[..k]) + multiset{s[k]} + multiset(s[k + 1..]);
  }

  /** Taking item `k` out of `items` takes its line total out of the total. */
  lemma ItemsTotalRemove(items: seq<OrderItem>, k: nat)
    requires k < |items|
    ensures ItemsTotal(items) == ItemsTotal(items[..k] + items[k + 1..]) + ItemTotal(items[k])
  {
    var front, back := items[..k], items[k + 1..];
    var middle := front + [items[k]];
    assert middle[..|middle| - 1] == front;
    assert ItemsTotal(middle) == ItemsTotal(front) + ItemTotal(items[k]);
    assert middle + back == items;
    ItemsTotalAppend(middle, back);
    ItemsTotalAppend(front, back);
  }

  /** With positive quantities and non-negative prices, no total is negative. */
  lemma {:induction false} ItemsTotalNonNegative(items: seq<OrderItem>)
    requires forall i :: 0 <= i < |items| ==> items[i].quantity >= 1 && items[i].priceAtOrder >= 0
    ensures ItemsTotal(items) >= 0
    decreases |items|
  {
    if items != [] {
      var n := |items| - 1;
      ItemsTotalNonNegative(items[..n]);
      assert ItemTotal(items[n]) >= 0 by {
        var it := items[n];
        assert it.quantity * it.priceAtOrder >= 0;
      }
    }
  }

  /** A product that some item asks more than nothing of appears in the items. */
  lemma {:induction false} QuantityOfPositive(items: seq<OrderItem>, q: ProductId)
    requires QuantityOf(items, q) > 0
    ensures exists k :: 0 <= k < |items| && items[k].product == q
    decreases |items|
  {
    var n := |items| - 1;
    if items[n].product != q {
      QuantityOfPositive(items[..n], q);
      var k :| 0 <= k < n && items[..n][k].product == q;
      assert items[k].product == q;
    }
  }

  lemma {:induction false} QuantityOfAbsent(items: seq<OrderItem>, q: ProductId)
    requires forall k :: 0 <= k < |items| ==> items[k].product != q
    ensures QuantityOf(items, q) == 0
    decreases |items|
  {
    if items != [] {
      QuantityOfAbsent(items[..|items| - 1], q);
    }
  }

  /** With one item per product, an item's quantity is its product's total
      quantity. */
  lemma {:induction false} QuantityOfDistinct(items: seq<OrderItem>, k: nat)
    requires DistinctProducts(items) && k < |items|
    ensures QuantityOf(items, items[k].product) == items[k].quantity
    decreases |items|
  {
    var n := |items| - 1;
    if k == n {
      QuantityOfAbsent(items[..n], items[k].product);
    } else {
      QuantityOfDistinct(items[..n], k);
    }
  }

  lemma {:induction false} QuantityOfNonNegative(items: seq<OrderItem>, q: ProductId)
    requires forall i :: 0 <= i < |items| ==> items[i].quantity >= 1
    ensures QuantityOf(items, q) >= 0
    decreases |items|
  {
    if items != [] {
      QuantityOfNonNegative(items[..|items| - 1], q);
    }
  }

  /**
   The status that `Order.update_status` leaves: DELIVERED and CANCELLED are
   kept; otherwise the status follows the payment, and an exact payment is PAID.
   */
  function NextStatus(s: Status, paid: Cents, total: Cents): (r: Status)
    ensures IsTerminal(s) ==> r == s
    ensures !IsTerminal(s) ==> (r == Pending <==> paid <= 0)
    ensures !IsTerminal(s) ==> (r == Partial <==> 0 < paid < total)
    ensures !IsTerminal(s) ==> (r == Paid <==> 0 < paid && total <= paid)
    ensures r != Processing
  {
    if IsTerminal(s) then s
    else if paid <= 0 then Pending
    else if paid < total then Partial
    else Paid
  }

  /** Recomputing the status a second time changes nothing. */
  lemma NextStatusIdempotent(s: Status, paid: Cents, total: Cents)
    ensures NextStatus(NextStatus(s, paid, total), paid, total) == NextStatus(s, paid, total)
  {
  }

  /**
   The price `OrderItem.save` leaves on an item: a new item with no price
   takes the product's current price; any other item keeps the price it has.
   */
  function SavedPrice(isNew: bool, price: Cents, productPrice: Cents): (r: Cents)
    ensures !isNew ==> r == price
    ensures price != 0 ==> r == price
    ensures isNew && price == 0 ==> r == productPrice
  {
    if isNew && price == 0 then productPrice else price
  }

  /** Historical pricing: once saved with a real price, an item keeps that
      price whatever the product's price becomes. */
  lemma SavedPriceIsHistorical(price: Cents, priceThen: Cents, priceNow: Cents)
    requires priceThen != 0
    ensures SavedPrice(false, SavedPrice(true, price, priceThen), priceNow) == SavedPrice(true, price, priceThen)
    ensures SavedPrice(true, SavedPrice(true, price, priceThen), priceNow) == SavedPrice(true, price, priceThen)
  {
  }

  /** The stored value of an order, as a row. */
  datatype OrderRow = OrderRow(customer: CustomerId, totalAmount: Cents, amountPaid: Cents,
                               status: Status, items: seq<OrderItem>)

  /** An order, whose stored total and status its own methods refresh. */
  class Order {
    var customer: CustomerId
    var totalAmount: Cents
    var amountPaid: Cents
    var status: Status
    var items: seq<OrderItem>

    /** A new order as the order form builds it: no items, a total of 0. */
    constructor (customer: CustomerId, amountPaid: Cents, status: Status)
      ensures Row() == OrderRow(customer, 0, amountPaid, status, [])
    {
      this.customer := customer;
      this.totalAmount := 0;
      this.amountPaid := amountPaid;
      this.status := status;
      this.items := [];
    }

    /** An order loaded from its stored row. */
    constructor Load(row: OrderRow)
      ensures Row() == row
    {
      customer := row.customer;
      totalAmount := row.totalAmount;
      amountPaid := row.amountPaid;
      status := row.status;
      items := row.items;
    }

    function Row(): OrderRow
      reads this
    {
      OrderRow(customer, totalAmount, amountPaid, status, items)
    }

    /** `Order.calculate_total`: the stored total becomes the sum of the line
        totals and is returned; a total that is already right is not written. */
    method CalculateTotal() returns (total: Cents)
      modifies this
      ensures total == ItemsTotal(items) && totalAmount == total
      ensures Row() == old(Row()).(totalAmount := total)
      ensures old(totalAmount) == ItemsTotal(old(items)) ==> unchanged(this)
    {
      var sum := 0;
      for i := 0 to |items|
        invariant sum == ItemsTotal(items[..i])
      {
        assert items[..i + 1][..i] == items[..i];
        sum := sum + ItemTotal(items[i]);
      }
      assert items[..|items|] == items;
      if totalAmount != sum {
        totalAmount := sum;
      }
      total := totalAmount;
    }

    /** `Order.update_status`: only the status changes. */
    method UpdateStatus()
      modifies this
      ensures status == NextStatus(old(status), amountPaid, totalAmount)
      ensures Row() == old(Row()).(status := status)
    {
      if status == Delivered || status == Cancelled {
        return;
      }
      if amountPaid <= 0 {
        status := Pending;
      } else if amountPaid < totalAmount {
        status := Partial;
      } else {
        status := Paid;
      }
    }

    /** `Order.get_amount_due`: what remains of the total after the payment.
        When the status is current, a PAID order owes nothing and a PARTIAL
        one still owes something. */
    function AmountDue(): (r: Cents)
      reads this
      ensures r + amountPaid == totalAmount
      ensures status == NextStatus(status, amountPaid, totalAmount) ==>
                (status == Paid ==> r <= 0) && (status == Partial ==> r > 0) &&
                (status == Pending ==> r >= totalAmount)
    {
      totalAmount - amountPaid
    }
  }
}
