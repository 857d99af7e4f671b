/**
 * getTotals (cart.js:118-130): a purchase subtotal, a rental subtotal that
 * multiplies by the number of days, and their sum, all in cents.
 */
module CartTotals {
  import opened Wrappers
  import opened CartOps
  import CartLaws

  datatype Totals = Totals(purchaseTotal: int, rentalTotal: int, total: int)

  /** `item.price || 0`: an absent price contributes nothing. */
  function PriceOrZero(item: Item): int {
    item.price.GetOr(0)
  }

  /** `item.days || 1`: a falsy day count is read as one day. */
  function DaysOrOne(item: Item): int {
    if item.days == 0 then 1 else item.days
  }

  /** What one unit of the line costs: its price, times the days for a rental. */
  function UnitValue(item: Item): int {
    if item.kind == Compra then PriceOrZero(item) else PriceOrZero(item) * DaysOrOne(item)
  }

  function PurchaseLine(item: Item): int {
    if item.kind == Compra then PriceOrZero(item) * item.quantity else 0
  }

  /** Every line that is not a purchase is summed as a rental (cart.js:125). */
  function RentalLine(item: Item): int {
    if item.kind == Compra then 0 else PriceOrZero(item) * DaysOrOne(item) * item.quantity
  }

  function LineTotal(item: Item): int {
    PurchaseLine(item) + RentalLine(item)
  }

  function PurchaseTotal(cart: Cart): int {
    Sum(cart, PurchaseLine)
  }

  function RentalTotal(cart: Cart): int {
    Sum(cart, RentalLine)
  }

  function GrandTotal(cart: Cart): int {
    PurchaseTotal(cart) + RentalTotal(cart)
  }

  /**
   * getTotals as the source computes it: one pass over the lines,
   * accumulating into the subtotal of each line's type.
   */
  method GetTotals(cart: Cart) returns (t: Totals)
    ensures t.purchaseTotal == PurchaseTotal(cart)
    ensures t.rentalTotal == RentalTotal(cart)
    ensures t.total == t.purchaseTotal + t.rentalTotal
    ensures t.total == Sum(cart, LineTotal)
    ensures |cart| == 0 ==> t == Totals(0, 0, 0)
  {
    var purchase := 0;
    var rental := 0;
    var i := 0;
    while i < |cart|
      invariant 0 <= i <= |cart|
      invariant purchase == PurchaseTotal(cart[..i])
      invariant rental == RentalTotal(cart[..i])
    {
      var item := cart[i];
      if item.kind == Compra {
        purchase := purchase + PriceOrZero(item) * item.quantity;
      } else {
        rental := rental + PriceOrZero(item) * DaysOrOne(item) * item.quantity;
      }
      assert cart[..i + 1] == cart[..i] + [item];
      CartLaws.SumAppend(cart[..i], [item], PurchaseLine);
      CartLaws.SumAppend(cart[..i], [item], RentalLine);
      i := i + 1;
    }
    assert cart[..i] == cart;
    TotalIsSumOfLines(cart);
    t := Totals(purchase, rental, purchase + rental);
  }

  // ---------------------------------------------------------------------
  // Laws of the totals
  // ---------------------------------------------------------------------

  /** Each line is counted once, in exactly one of the two subtotals. */
  lemma {:induction false} TotalIsSumOfLines(cart: Cart)
    ensures GrandTotal(cart) == Sum(cart, LineTotal)
  {
    if |cart| > 0 {
      TotalIsSumOfLines(cart[1..]);
    }
  }

  /** A line costs its unit value times its quantity. */
  lemma LineIsUnitTimesQuantity(item: Item)
    ensures LineTotal(item) == UnitValue(item) * item.quantity
  {
    if item.kind != Compra {
      assert PriceOrZero(item) * DaysOrOne(item) * item.quantity
          == (PriceOrZero(item) * DaysOrOne(item)) * item.quantity;
    }
  }

  /** The totals do not depend on the order of the lines. */
  lemma TotalsIgnoreOrder(a: Cart, b: Cart)
    requires multiset(a) == multiset(b)
    ensures PurchaseTotal(a) == PurchaseTotal(b)
    ensures RentalTotal(a) == RentalTotal(b)
    ensures GrandTotal(a) == GrandTotal(b)
  {
    CartLaws.SumPermutation(a, b, PurchaseLine);
    CartLaws.SumPermutation(a, b, RentalLine);
  }

  /** Totals over a cart made of two parts are the sums of the parts' totals. */
  lemma TotalsOfConcat(a: Cart, b: Cart)
    ensures PurchaseTotal(a + b) == PurchaseTotal(a) + PurchaseTotal(b)
    ensures RentalTotal(a + b) == RentalTotal(a) + RentalTotal(b)
  {
    CartLaws.SumAppend(a, b, PurchaseLine);
    CartLaws.SumAppend(a, b, RentalLine);
  }

  /** removeFromCart takes exactly the dropped lines out of each subtotal. */
  lemma {:induction false} TotalsAfterRemove(cart: Cart, id: string, kind: Kind)
    ensures PurchaseTotal(RemoveFromCart(cart, id, kind)) == PurchaseTotal(cart) - PurchaseTotal(WithKey(cart, id, kind))
    ensures RentalTotal(RemoveFromCart(cart, id, kind)) == RentalTotal(cart) - RentalTotal(WithKey(cart, id, kind))
  {
    CartLaws.SumSplit(cart, id, kind, PurchaseLine);
    CartLaws.SumSplit(cart, id, kind, RentalLine);
  }

  /** One more unit on a line adds its unit value. */
  lemma LineAfterBump(x: Item)
    ensures LineTotal(x.(quantity := x.quantity + 1)) == LineTotal(x) + UnitValue(x)
  {
    var y := x.(quantity := x.quantity + 1);
    LineIsUnitTimesQuantity(x);
    LineIsUnitTimesQuantity(y);
    CartLaws.MulStep(UnitValue(x), x.quantity);
  }

  /** One more unit on every matching line adds those lines' unit values. */
  lemma {:induction false} LinesAfterBump(cart: Cart, id: string, kind: Kind)
    ensures Sum(Bump(cart, id, kind), LineTotal) == Sum(cart, LineTotal) + Sum(WithKey(cart, id, kind), UnitValue)
  {
    forall x: Item
      ensures LineTotal(x.(quantity := x.quantity + 1)) == LineTotal(x) + UnitValue(x)
    {
      LineAfterBump(x);
    }
    CartLaws.SumAfterBump(cart, id, kind, LineTotal, UnitValue);
  }

  /**
   * In a cart with distinct keys, addToCart raises the grand total by one
   * unit of the line it touches: the existing line's unit value, or the new
   * line's.
   */
  lemma TotalAfterAdd(cart: Cart, id: string, kind: Kind, size: string, price: Option<int>, days: Option<int>)
    requires CartLaws.DistinctKeys(cart)
    ensures HasKey(cart, id, kind) ==>
      GrandTotal(AddToCart(cart, id, kind, size, price, days)) == GrandTotal(cart) + UnitValue(WithKey(cart, id, kind)[0])
    ensures !HasKey(cart, id, kind) ==>
      GrandTotal(AddToCart(cart, id, kind, size, price, days)) == GrandTotal(cart) + UnitValue(NewItem(id, kind, size, price, days))
  {
    var r := AddToCart(cart, id, kind, size, price, days);
    TotalIsSumOfLines(cart);
    TotalIsSumOfLines(r);
    if HasKey(cart, id, kind) {
      LinesAfterBump(cart, id, kind);
      CartLaws.WithKeyAtMostOne(cart, id, kind);
      var only := WithKey(cart, id, kind);
      assert only == [only[0]];
      assert Sum(only, UnitValue) == UnitValue(only[0]);
    } else {
      var n := NewItem(id, kind, size, price, days);
      CartLaws.SumAppend(cart, [n], LineTotal);
      LineIsUnitTimesQuantity(n);
    }
  }
}
