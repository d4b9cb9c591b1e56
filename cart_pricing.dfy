/**
 * The price summary the cart page derives on every render from the item
 * snapshot of the cart store and the current discount rate: subtotal,
 * discount amount, discounted subtotal, a fixed 10% tax and the total,
 * plus the item count shown in the page header.
 *
 * Money is exact `real` arithmetic; JavaScript's binary floating point is
 * not modelled.
 */
module CartPricing {

  /** The part of a cart-store item the pricing reads. */
  datatype LineItem = LineItem(price: real, quantity: int)

  const TaxRate: real := 0.1

  /** `item.price * item.quantity`. */
  function LineTotal(item: LineItem): real {
    item.price * item.quantity as real
  }

  /** `items.reduce((total, item) => total + item.price * item.quantity, 0)`, a left fold. */
  function Subtotal(items: seq<LineItem>): real {
    if items == [] then 0.0
    else Subtotal(items[..|items| - 1]) + LineTotal(items[|items| - 1])
  }

  /** `items.reduce((sum, i) => sum + i.quantity, 0)`, the header's item count. */
  function ItemCount(items: seq<LineItem>): int {
    if items == [] then 0
    else ItemCount(items[..|items| - 1]) + items[|items| - 1].quantity
  }

  /** No negative price or quantity, as the cart store guarantees. */
  predicate NonNegative(items: seq<LineItem>) {
    forall i :: 0 <= i < |items| ==> items[i].price >= 0.0 && items[i].quantity >= 0
  }

  /** The derived figures shown in the order summary. */
  datatype Summary = Summary(
    subtotal: real,
    discountAmount: real,
    discountedSubtotal: real,
    tax: real,
    total: real)

  /** The straight-line derivation from the subtotal and the discount rate. */
  function Price(items: seq<LineItem>, discount: real): Summary {
    var subtotal := Subtotal(items);
    var discountAmount := subtotal * discount;
    var discountedSubtotal := subtotal - discountAmount;
    var tax := discountedSubtotal * TaxRate;
    Summary(subtotal, discountAmount, discountedSubtotal, tax, discountedSubtotal + tax)
  }

  /** The fold distributes over concatenation. */
  lemma {:induction false} SubtotalAppend(a: seq<LineItem>, b: seq<LineItem>)
    ensures Subtotal(a + b) == Subtotal(a) + Subtotal(b)
    decreases |b|
  {
    if b != [] {
      var n := |b| - 1;
      assert (a + b)[..|a + b| - 1] == a + b[..n];
      SubtotalAppend(a, b[..n]);
    } else {
      assert a + b == a;
    }
  }

  /** The subtotal does not depend on the order of the items. */
  lemma {:induction false} SubtotalPermutation(a: seq<LineItem>, b: seq<LineItem>)
    requires multiset(a) == multiset(b)
    ensures Subtotal(a) == Subtotal(b)
    decreases |a|
  {
    if a != [] {
      var n := |a| - 1;
      var x := a[n];
      assert a == a[..n] + [x];
      assert x in multiset(b);
      var j :| 0 <= j < |b| && b[j] == x;
      var rest := b[..j] + b[j + 1..];
      assert b == b[..j] + [x] + b[j + 1..];
      assert multiset(a) == multiset(a[..n]) + multiset{x};
      assert multiset(b) == multiset(b[..j]) + multiset{x} + multiset(b[j + 1..]);
      assert multiset(rest) == multiset(b[..j]) + multiset(b[j + 1..]);
      assert multiset(a[..n]) == multiset(a) - multiset{x};
      assert multiset(rest) == multiset(b) - multiset{x};
      SubtotalPermutation(a[..n], rest);
      SubtotalAppend(b[..j] + [x], b[j + 1..]);
      SubtotalAppend(b[..j], [x]);
      SubtotalAppend(b[..j], b[j + 1..]);
      assert Subtotal([x]) == LineTotal(x) by {
        assert [x][..0] == [];
      }
    } else {
      assert multiset(b) == multiset{};
    }
  }

  /** With no negative price or quantity the subtotal is not negative. */
  lemma {:induction false} SubtotalNonNegative(items: seq<LineItem>)
    requires NonNegative(items)
    ensures Subtotal(items) >= 0.0
    decreases |items|
  {
    if items != [] {
      var n := |items| - 1;
      SubtotalNonNegative(items[..n]);
      assert LineTotal(items[n]) >= 0.0;
    }
  }

  /** The header count is at least the number of lines when every quantity is positive. */
  lemma {:induction false} ItemCountAtLeastLines(items: seq<LineItem>)
    requires forall i :: 0 <= i < |items| ==> items[i].quantity >= 1
    ensures ItemCount(items) >= |items|
    decreases |items|
  {
    if items != [] {
      ItemCountAtLeastLines(items[..|items| - 1]);
    }
  }

  /** A price cap per unit bounds the subtotal by the cap times the header count. */
  lemma {:induction false} SubtotalAtMostCapTimesCount(items: seq<LineItem>, cap: real)
    requires NonNegative(items)
    requires forall i :: 0 <= i < |items| ==> items[i].price <= cap
    ensures 0.0 <= Subtotal(items) <= cap * ItemCount(items) as real
    decreases |items|
  {
    if items != [] {
      var n := |items| - 1;
      var last := items[n];
      SubtotalAtMostCapTimesCount(items[..n], cap);
      assert 0.0 <= LineTotal(last) <= cap * last.quantity as real by {
        assert last.price * last.quantity as real <= cap * last.quantity as real;
      }
      assert cap * ItemCount(items) as real
          == cap * ItemCount(items[..n]) as real + cap * last.quantity as real;
    }
  }

  /** An empty cart prices to zero whatever the discount. */
  lemma EmptyCartIsFree(discount: real)
    ensures Price([], discount) == Summary(0.0, 0.0, 0.0, 0.0, 0.0)
  {
  }

  /** The tax is 10% of the discounted subtotal and the total is subtotal * (1 - discount) * 1.1. */
  lemma PriceIdentities(items: seq<LineItem>, discount: real)
    ensures Price(items, discount).tax
         == TaxRate * (Price(items, discount).subtotal - Price(items, discount).discountAmount)
    ensures Price(items, discount).total == Subtotal(items) * (1.0 - discount) * 1.1
    ensures Price(items, discount).total
         == Price(items, discount).discountedSubtotal + Price(items, discount).tax
  {
  }

  /** With sane inputs, the discount never exceeds the subtotal and the total stays within [0, 1.1 * subtotal]. */
  lemma {:induction false} PriceBounds(items: seq<LineItem>, discount: real)
    requires NonNegative(items)
    requires 0.0 <= discount < 1.0
    ensures 0.0 <= Price(items, discount).discountAmount <= Price(items, discount).subtotal
    ensures 0.0 <= Price(items, discount).tax
    ensures 0.0 <= Price(items, discount).total <= 1.1 * Price(items, discount).subtotal
  {
    var s := Subtotal(items);
    SubtotalNonNegative(items);
    assert 0.0 <= s * discount <= s;
  }

  /** The whole summary does not depend on the order of the items. */
  lemma PricePermutation(a: seq<LineItem>, b: seq<LineItem>, discount: real)
    requires multiset(a) == multiset(b)
    ensures Price(a, discount) == Price(b, discount)
  {
    SubtotalPermutation(a, b);
  }

  /** Two units at 20.00 and one at 5.00, with the 15% coupon. */
  lemma WelcomeExample()
    ensures Price([LineItem(20.0, 2), LineItem(5.0, 1)], 0.15)
         == Summary(45.0, 6.75, 38.25, 3.825, 42.075)
  {
    var items := [LineItem(20.0, 2), LineItem(5.0, 1)];
    assert items[..1] == [LineItem(20.0, 2)];
    assert items[..1][..0] == [];
    assert Subtotal(items[..1]) == 40.0;
    assert Subtotal(items) == 45.0;
  }

  /** The same cart without a discount. */
  lemma NoDiscountExample()
    ensures Price([LineItem(20.0, 2), LineItem(5.0, 1)], 0.0).total == 49.5
  {
    var items := [LineItem(20.0, 2), LineItem(5.0, 1)];
    assert items[..1] == [LineItem(20.0, 2)];
    assert items[..1][..0] == [];
    assert Subtotal(items[..1]) == 40.0;
    assert Subtotal(items) == 45.0;
  }
}
