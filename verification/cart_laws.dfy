/**
 * Laws of the cart operations: ordering, idempotence, the badge count, and
 * the well-formedness invariant kept by every operation started from an
 * empty cart.
 */
module CartLaws {
  import opened Wrappers
  import opened CartOps
  import Catalog

  // ---------------------------------------------------------------------
  // Sums over a cart
  // ---------------------------------------------------------------------

  lemma {:induction false} SumAppend(a: Cart, b: Cart, f: Item -> int)
    ensures Sum(a + b, f) == Sum(a, f) + Sum(b, f)
  {
    if |a| == 0 {
      assert a + b == b;
    } else {
      assert (a + b)[0] == a[0];
      assert (a + b)[1..] == a[1..] + b;
      SumAppend(a[1..], b, f);
    }
  }

  /** A sum over the lines does not depend on their order. */
  lemma {:induction false} SumPermutation(a: Cart, b: Cart, f: Item -> int)
    requires multiset(a) == multiset(b)
    ensures Sum(a, f) == Sum(b, f)
    decreases |a|
  {
    if |a| == 0 {
      assert |multiset(b)| == 0;
    } else {
      var x := a[0];
      assert x in multiset(b);
      var k :| 0 <= k < |b| && b[k] == x;
      var rest := b[..k] + b[k + 1..];
      assert b == b[..k] + [x] + b[k + 1..];
      assert a == [x] + a[1..];
      assert multiset(b) == multiset(b[..k]) + multiset([x]) + multiset(b[k + 1..]);
      assert multiset(a) == multiset([x]) + multiset(a[1..]);
      assert multiset(rest) == multiset(b[..k]) + multiset(b[k + 1..]);
      calc {
        multiset(a[1..]);
        multiset(a) - multiset{x};
        multiset(b) - multiset{x};
        multiset(rest);
      }
      SumPermutation(a[1..], rest, f);
      SumAppend(b[..k] + [x], b[k + 1..], f);
      SumAppend(b[..k], [x], f);
      SumAppend(b[..k], b[k + 1..], f);
      assert Sum([x], f) == f(x);
    }
  }

  /** Removing a key splits any sum into the kept lines and the dropped ones. */
  lemma {:induction false} SumSplit(cart: Cart, id: string, kind: Kind, f: Item -> int)
    ensures Sum(cart, f) == Sum(RemoveFromCart(cart, id, kind), f) + Sum(WithKey(cart, id, kind), f)
  {
    if |cart| > 0 {
      SumSplit(cart[1..], id, kind, f);
      var kept := RemoveFromCart(cart[1..], id, kind);
      var dropped := WithKey(cart[1..], id, kind);
      if Matches(cart[0], id, kind) {
        assert WithKey(cart, id, kind) == [cart[0]] + dropped;
        SumAppend([cart[0]], dropped, f);
      } else {
        assert RemoveFromCart(cart, id, kind) == [cart[0]] + kept;
        SumAppend([cart[0]], kept, f);
      }
    }
  }

  /**
   * If one more unit adds `g` to a line's `f`, then bumping the matching
   * lines adds `g` of each of them to the sum of `f`.
   */
  lemma {:induction false} SumAfterBump(cart: Cart, id: string, kind: Kind, f: Item -> int, g: Item -> int)
    requires forall x: Item :: f(x.(quantity := x.quantity + 1)) == f(x) + g(x)
    ensures Sum(Bump(cart, id, kind), f) == Sum(cart, f) + Sum(WithKey(cart, id, kind), g)
  {
    if |cart| > 0 {
      var x := cart[0];
      var rest := cart[1..];
      SumAfterBump(rest, id, kind, f, g);
      assert Bump(cart, id, kind)[1..] == Bump(rest, id, kind);
      if Matches(x, id, kind) {
        var only := WithKey(rest, id, kind);
        assert WithKey(cart, id, kind) == [x] + only;
        assert ([x] + only)[1..] == only;
      }
    }
  }

  // ---------------------------------------------------------------------
  // addToCart
  // ---------------------------------------------------------------------

  /**
   * Without a price argument, a new line of a catalog product gets a price
   * exactly when the product is offered in that mode (sale for a purchase,
   * rental for a rental); an unknown product never gets one.
   */
  lemma CatalogPriceFallback(id: string, kind: Kind)
    ensures id in Catalog.Products ==>
      (ChosenPrice(id, kind, None).Some? <==> (kind == Compra <==> Catalog.Products[id].salePrice.Some?))
    ensures id !in Catalog.Products ==> ChosenPrice(id, kind, None) == None
  {
  }

  // ---------------------------------------------------------------------
  // removeFromCart
  // ---------------------------------------------------------------------

  /** A line survives removal exactly when it was there and carries another key. */
  lemma {:induction false} RemoveMembership(cart: Cart, id: string, kind: Kind)
    ensures forall x :: x in RemoveFromCart(cart, id, kind) <==> x in cart && !Matches(x, id, kind)
  {
    if |cart| > 0 {
      RemoveMembership(cart[1..], id, kind);
      assert cart == [cart[0]] + cart[1..];
    }
  }

  /** The kept lines and the dropped lines together are the original lines. */
  lemma {:induction false} RemovePartition(cart: Cart, id: string, kind: Kind)
    ensures multiset(RemoveFromCart(cart, id, kind)) + multiset(WithKey(cart, id, kind)) == multiset(cart)
  {
    if |cart| > 0 {
      RemovePartition(cart[1..], id, kind);
      assert cart == [cart[0]] + cart[1..];
    }
  }

  /** Removing twice is removing once. */
  lemma RemoveIdempotent(cart: Cart, id: string, kind: Kind)
    ensures RemoveFromCart(RemoveFromCart(cart, id, kind), id, kind) == RemoveFromCart(cart, id, kind)
  {
  }

  /** Removal works piecewise, so the surviving lines keep their relative order. */
  lemma {:induction false} RemoveConcat(a: Cart, b: Cart, id: string, kind: Kind)
    ensures RemoveFromCart(a + b, id, kind) == RemoveFromCart(a, id, kind) + RemoveFromCart(b, id, kind)
  {
    if |a| == 0 {
      assert a + b == b;
    } else {
      assert (a + b)[1..] == a[1..] + b;
      RemoveConcat(a[1..], b, id, kind);
    }
  }

  /** Removing from a one-line cart keeps the line exactly when it has another key. */
  lemma RemoveSingle(x: Item, id: string, kind: Kind)
    ensures RemoveFromCart([x], id, kind) == (if Matches(x, id, kind) then [] else [x])
  {
    assert [x][1..] == [];
  }

  /** Removing one key never disturbs lines of another key. */
  lemma {:induction false} RemoveCommutes(cart: Cart, id1: string, kind1: Kind, id2: string, kind2: Kind)
    ensures RemoveFromCart(RemoveFromCart(cart, id1, kind1), id2, kind2)
         == RemoveFromCart(RemoveFromCart(cart, id2, kind2), id1, kind1)
  {
    if |cart| > 0 {
      RemoveCommutes(cart[1..], id1, kind1, id2, kind2);
      var x := cart[0];
      var r1 := RemoveFromCart(cart[1..], id1, kind1);
      var r2 := RemoveFromCart(cart[1..], id2, kind2);
      if !Matches(x, id1, kind1) {
        assert RemoveFromCart(cart, id1, kind1) == [x] + r1;
        RemoveConcat([x], r1, id2, kind2);
        RemoveSingle(x, id2, kind2);
      }
      if !Matches(x, id2, kind2) {
        assert RemoveFromCart(cart, id2, kind2) == [x] + r2;
        RemoveConcat([x], r2, id1, kind1);
        RemoveSingle(x, id1, kind1);
      }
    }
  }

  // ---------------------------------------------------------------------
  // The badge count
  // ---------------------------------------------------------------------

  /** Raising every matching line by one raises the count by the number of such lines. */
  lemma {:induction false} CountBump(cart: Cart, id: string, kind: Kind)
    ensures CartCount(Bump(cart, id, kind)) == CartCount(cart) + |WithKey(cart, id, kind)|
  {
    if |cart| > 0 {
      CountBump(cart[1..], id, kind);
      assert Bump(cart, id, kind)[1..] == Bump(cart[1..], id, kind);
    }
  }

  /** Distributes a product over one more line (helper for the count of updateQuantity). */
  lemma MulStep(q: int, n: int)
    ensures q * (1 + n) == q + q * n
  {
  }

  /** Setting the matching lines to `q` replaces their quantities by `q` each. */
  lemma {:induction false} CountSetQuantity(cart: Cart, id: string, kind: Kind, q: int)
    ensures CartCount(SetQuantity(cart, id, kind, q))
         == CartCount(cart) - CartCount(WithKey(cart, id, kind)) + q * |WithKey(cart, id, kind)|
  {
    if |cart| > 0 {
      var rest := cart[1..];
      CountSetQuantity(rest, id, kind, q);
      var updated := SetQuantity(cart, id, kind, q);
      assert updated[1..] == SetQuantity(rest, id, kind, q);
      var only := WithKey(rest, id, kind);
      if Matches(cart[0], id, kind) {
        assert updated[0].quantity == q;
        assert WithKey(cart, id, kind) == [cart[0]] + only;
        assert ([cart[0]] + only)[1..] == only;
        MulStep(q, |only|);
      } else {
        assert updated[0] == cart[0];
        assert WithKey(cart, id, kind) == only;
      }
    }
  }

  /**
   * addToCart raises the count by one for a new key, and by the number of
   * lines already carrying the key otherwise.
   */
  lemma CountAfterAdd(cart: Cart, id: string, kind: Kind, size: string, price: Option<int>, days: Option<int>)
    ensures CartCount(AddToCart(cart, id, kind, size, price, days))
         == CartCount(cart) + (if HasKey(cart, id, kind) then |WithKey(cart, id, kind)| else 1)
  {
    if HasKey(cart, id, kind) {
      CountBump(cart, id, kind);
    } else {
      SumAppend(cart, [NewItem(id, kind, size, price, days)], Quantity);
    }
  }

  /** removeFromCart lowers the count by the quantities of the dropped lines. */
  lemma {:induction false} CountAfterRemove(cart: Cart, id: string, kind: Kind)
    ensures CartCount(RemoveFromCart(cart, id, kind)) == CartCount(cart) - CartCount(WithKey(cart, id, kind))
  {
    SumSplit(cart, id, kind, Quantity);
  }

  /**
   * updateQuantity in a cart with distinct keys: the key's line leaves the
   * count, and a positive quantity puts `q` back in its place.
   */
  lemma {:induction false} CountAfterUpdate(cart: Cart, id: string, kind: Kind, q: int)
    requires DistinctKeys(cart)
    ensures q <= 0 ==>
      CartCount(UpdateQuantity(cart, id, kind, q)) == CartCount(cart) - CartCount(WithKey(cart, id, kind))
    ensures q > 0 ==>
      CartCount(UpdateQuantity(cart, id, kind, q))
      == CartCount(cart) - CartCount(WithKey(cart, id, kind)) + (if HasKey(cart, id, kind) then q else 0)
  {
    if q <= 0 {
      CountAfterRemove(cart, id, kind);
    } else {
      CountSetQuantity(cart, id, kind, q);
      WithKeyAtMostOne(cart, id, kind);
    }
  }

  // ---------------------------------------------------------------------
  // Well-formedness: distinct keys and positive quantities
  // ---------------------------------------------------------------------

  ghost predicate DistinctKeys(cart: Cart) {
    forall i, j | 0 <= i < j < |cart| :: Key(cart[i]) != Key(cart[j])
  }

  ghost predicate PositiveQuantities(cart: Cart) {
    forall i | 0 <= i < |cart| :: cart[i].quantity >= 1
  }

  ghost predicate WellFormed(cart: Cart) {
    DistinctKeys(cart) && PositiveQuantities(cart)
  }

  /** In a cart with distinct keys a key names at most one line. */
  lemma {:induction false} WithKeyAtMostOne(cart: Cart, id: string, kind: Kind)
    requires DistinctKeys(cart)
    ensures |WithKey(cart, id, kind)| == (if HasKey(cart, id, kind) then 1 else 0)
  {
    if |cart| > 0 {
      var rest := cart[1..];
      assert forall i | 0 <= i < |rest| :: rest[i] == cart[i + 1];
      assert DistinctKeys(rest);
      WithKeyAtMostOne(rest, id, kind);
      if Matches(cart[0], id, kind) {
        assert !HasKey(rest, id, kind);
      } else {
        assert HasKey(cart, id, kind) ==> HasKey(rest, id, kind);
      }
    }
  }

  /** In a well-formed cart every addToCart raises the count by exactly one. */
  lemma AddRaisesCountByOne(cart: Cart, id: string, kind: Kind, size: string, price: Option<int>, days: Option<int>)
    requires DistinctKeys(cart)
    ensures CartCount(AddToCart(cart, id, kind, size, price, days)) == CartCount(cart) + 1
  {
    CountAfterAdd(cart, id, kind, size, price, days);
    WithKeyAtMostOne(cart, id, kind);
  }

  /** In a cart with distinct keys, removing a present key drops exactly one line. */
  lemma {:induction false} RemoveDropsOneLine(cart: Cart, id: string, kind: Kind)
    requires DistinctKeys(cart)
    ensures |RemoveFromCart(cart, id, kind)| == |cart| - (if HasKey(cart, id, kind) then 1 else 0)
  {
    WithKeyAtMostOne(cart, id, kind);
    RemovePartition(cart, id, kind);
    assert |multiset(RemoveFromCart(cart, id, kind))| + |multiset(WithKey(cart, id, kind))| == |multiset(cart)|;
  }

  lemma {:induction false} AddPreservesWellFormed(cart: Cart, id: string, kind: Kind, size: string, price: Option<int>, days: Option<int>)
    requires WellFormed(cart)
    ensures WellFormed(AddToCart(cart, id, kind, size, price, days))
  {
    var r := AddToCart(cart, id, kind, size, price, days);
    if HasKey(cart, id, kind) {
      assert forall i | 0 <= i < |r| :: Key(r[i]) == Key(cart[i]);
    } else {
      assert forall i | 0 <= i < |cart| :: r[i] == cart[i];
      assert forall i | 0 <= i < |cart| :: Key(r[i]) != Key(r[|cart|]);
    }
  }

  lemma {:induction false} RemovePreservesWellFormed(cart: Cart, id: string, kind: Kind)
    requires WellFormed(cart)
    ensures WellFormed(RemoveFromCart(cart, id, kind))
  {
    if |cart| > 0 {
      var rest := cart[1..];
      assert forall i | 0 <= i < |rest| :: rest[i] == cart[i + 1];
      RemovePreservesWellFormed(rest, id, kind);
      var kept := RemoveFromCart(rest, id, kind);
      if !Matches(cart[0], id, kind) {
        var r := [cart[0]] + kept;
        assert RemoveFromCart(cart, id, kind) == r;
        forall j | 0 < j < |r|
          ensures Key(r[0]) != Key(r[j])
        {
          RemoveMembership(rest, id, kind);
          assert r[j] in kept;
        }
      }
    }
  }

  lemma UpdatePreservesWellFormed(cart: Cart, id: string, kind: Kind, q: int)
    requires WellFormed(cart)
    ensures WellFormed(UpdateQuantity(cart, id, kind, q))
  {
    if q <= 0 {
      RemovePreservesWellFormed(cart, id, kind);
    } else {
      var r := UpdateQuantity(cart, id, kind, q);
      assert forall i | 0 <= i < |r| :: Key(r[i]) == Key(cart[i]);
    }
  }

  // ---------------------------------------------------------------------
  // Runs of operations
  // ---------------------------------------------------------------------

  lemma ApplyPreservesWellFormed(cart: Cart, op: Op)
    requires WellFormed(cart)
    ensures WellFormed(Apply(cart, op))
  {
    match op
    case Add(id, kind, size, price, days) => AddPreservesWellFormed(cart, id, kind, size, price, days);
    case Remove(id, kind) => RemovePreservesWellFormed(cart, id, kind);
    case Update(id, kind, q) => UpdatePreservesWellFormed(cart, id, kind, q);
    case Clear =>
    case Checkout =>
  }

  /** Any run of operations keeps a well-formed cart well-formed. */
  lemma {:induction false} RunPreservesWellFormed(cart: Cart, ops: seq<Op>)
    requires WellFormed(cart)
    ensures WellFormed(Run(cart, ops))
    decreases |ops|
  {
    if |ops| > 0 {
      ApplyPreservesWellFormed(cart, ops[0]);
      RunPreservesWellFormed(Apply(cart, ops[0]), ops[1..]);
    }
  }

  /**
   * Every cart reached from the empty cart has pairwise distinct
   * (productId, type) keys and quantities of at least one.
   */
  lemma ReachableIsWellFormed(ops: seq<Op>)
    ensures DistinctKeys(Run([], ops))
    ensures forall i | 0 <= i < |Run([], ops)| :: Run([], ops)[i].quantity >= 1
  {
    RunPreservesWellFormed([], ops);
  }
}
