/**
 * The cart of cart.js as an immutable sequence of line items, with one pure
 * function per store operation. The module-level `cart` variable of the
 * source becomes an argument and a result.
 */
module CartOps {
  import opened Wrappers
  import Catalog

  /** The two transaction types: 'compra' (purchase) and 'alquiler' (rental). */
  datatype Kind = Compra | Alquiler

  /**
   * One line of the cart. `price` is in cents and absent when neither the
   * caller nor the catalog supplied one; `days` equal to 0 stands for any
   * falsy stored value, which the totals read as one day.
   */
  datatype Item = Item(
    productId: string,
    kind: Kind,
    size: string,
    quantity: int,
    price: Option<int>,
    days: int,
    name: string,
    image: Option<string>)

  type Cart = seq<Item>

  /** The identity of a line: size is deliberately not part of it. */
  function Key(item: Item): (string, Kind) {
    (item.productId, item.kind)
  }

  predicate Matches(item: Item, id: string, kind: Kind) {
    Key(item) == (id, kind)
  }

  predicate HasKey(cart: Cart, id: string, kind: Kind) {
    exists i | 0 <= i < |cart| :: Matches(cart[i], id, kind)
  }

  /** Sum of `f` over the lines, front to back. */
  function Sum(cart: Cart, f: Item -> int): int {
    if |cart| == 0 then 0 else f(cart[0]) + Sum(cart[1..], f)
  }

  function Quantity(item: Item): int {
    item.quantity
  }

  /**
   * The number shown in the cart badge: the sum of all quantities
   * (cart.js:135). An empty cart shows 0, and a cart whose lines all hold at
   * least one unit shows at least one per line.
   */
  function CartCount(cart: Cart): (r: int)
    ensures |cart| == 0 ==> r == 0
    ensures (forall i | 0 <= i < |cart| :: cart[i].quantity >= 1) ==> r >= |cart|
  {
    CountCoversLines(cart);
    Sum(cart, Quantity)
  }

  lemma {:induction false} CountCoversLines(cart: Cart)
    ensures (forall i | 0 <= i < |cart| :: cart[i].quantity >= 1) ==> Sum(cart, Quantity) >= |cart|
  {
    if |cart| > 0 {
      var rest := cart[1..];
      assert forall i | 0 <= i < |rest| :: rest[i] == cart[i + 1];
      CountCoversLines(rest);
    }
  }

  /** The lines carrying the key (id, kind), in order. */
  function WithKey(cart: Cart, id: string, kind: Kind): (r: Cart)
    ensures forall i | 0 <= i < |r| :: Matches(r[i], id, kind)
    ensures |r| <= |cart|
    ensures !HasKey(cart, id, kind) <==> r == []
  {
    if |cart| == 0 then []
    else if Matches(cart[0], id, kind) then [cart[0]] + WithKey(cart[1..], id, kind)
    else
      assert forall i | 0 <= i < |cart| - 1 :: cart[1..][i] == cart[i + 1];
      WithKey(cart[1..], id, kind)
  }

  // ---------------------------------------------------------------------
  // addToCart
  // ---------------------------------------------------------------------

  /**
   * The price stored on a new line: the caller's price when it is truthy
   * (present and non-zero), otherwise the catalog's sale price for a
   * purchase or rental price for a rental, which may be absent.
   */
  function ChosenPrice(id: string, kind: Kind, price: Option<int>): (r: Option<int>)
    ensures price.Some? && price.value != 0 ==> r == price
    ensures r.Some? ==> r.value != 0
    ensures (price.None? || price.value == 0) && id !in Catalog.Products ==> r == None
  {
    if price.Some? && price.value != 0 then price
    else if kind == Compra then Catalog.Lookup(id).salePrice
    else Catalog.Lookup(id).rentalPrice
  }

  /** The line appended when the key is new; an omitted `days` defaults to 1. */
  function NewItem(id: string, kind: Kind, size: string, price: Option<int>, days: Option<int>): (r: Item)
    ensures Matches(r, id, kind) && r.size == size && r.quantity == 1
    ensures r.days == (if days.Some? then days.value else 1)
    ensures r.price == ChosenPrice(id, kind, price)
    ensures r.name == Catalog.Lookup(id).name && r.image == Catalog.Lookup(id).image
    ensures id !in Catalog.Products ==> r.name == "Producto" && r.image == None
  {
    var product := Catalog.Lookup(id);
    Item(id, kind, size, 1, ChosenPrice(id, kind, price), days.GetOr(1), product.name, product.image)
  }

  /** Every line with the key gets one more unit; nothing else changes. */
  function Bump(cart: Cart, id: string, kind: Kind): (r: Cart)
    ensures |r| == |cart|
    ensures forall i | 0 <= i < |cart| ::
      r[i] == (if Matches(cart[i], id, kind) then cart[i].(quantity := cart[i].quantity + 1) else cart[i])
  {
    if |cart| == 0 then []
    else
      var head := if Matches(cart[0], id, kind) then cart[0].(quantity := cart[0].quantity + 1) else cart[0];
      [head] + Bump(cart[1..], id, kind)
  }

  /**
   * addToCart (cart.js:41-66). An existing key only has its quantity raised
   * by one, keeping its size, price and days; a new key is appended with
   * quantity 1.
   */
  function AddToCart(cart: Cart, id: string, kind: Kind, size: string, price: Option<int>, days: Option<int>): (r: Cart)
    ensures HasKey(r, id, kind)
    ensures HasKey(cart, id, kind) ==>
      && |r| == |cart|
      && forall i | 0 <= i < |cart| ::
           && r[i] == cart[i].(quantity := r[i].quantity)
           && r[i].quantity == cart[i].quantity + (if Matches(cart[i], id, kind) then 1 else 0)
    ensures !HasKey(cart, id, kind) ==>
      && |r| == |cart| + 1
      && r[..|cart|] == cart
      && Matches(r[|cart|], id, kind)
      && r[|cart|].size == size
      && r[|cart|].quantity == 1
      && r[|cart|].days == (if days.Some? then days.value else 1)
      && (price.Some? && price.value != 0 ==> r[|cart|].price == price)
      && (price.None? || price.value == 0 ==>
            r[|cart|].price == if kind == Compra then Catalog.Lookup(id).salePrice else Catalog.Lookup(id).rentalPrice)
      && r[|cart|].name == Catalog.Lookup(id).name
      && r[|cart|].image == Catalog.Lookup(id).image
  {
    if HasKey(cart, id, kind) then
      var r := Bump(cart, id, kind);
      var i :| 0 <= i < |cart| && Matches(cart[i], id, kind);
      assert Matches(r[i], id, kind);
      r
    else
      var r := cart + [NewItem(id, kind, size, price, days)];
      assert Matches(r[|cart|], id, kind);
      r
  }

  // ---------------------------------------------------------------------
  // removeFromCart, updateQuantity, clearCart, handleCheckout
  // ---------------------------------------------------------------------

  /**
   * removeFromCart (cart.js:88-91): drops every line with the key, keeping
   * the rest. A line survives exactly when it does not carry the key.
   */
  function RemoveFromCart(cart: Cart, id: string, kind: Kind): (r: Cart)
    ensures !HasKey(r, id, kind)
    ensures HasKey(cart, id, kind) ==> |r| < |cart|
    ensures !HasKey(cart, id, kind) ==> r == cart
  {
    if |cart| == 0 then []
    else
      assert forall i | 0 <= i < |cart| - 1 :: cart[1..][i] == cart[i + 1];
      assert cart == [cart[0]] + cart[1..];
      if Matches(cart[0], id, kind) then RemoveFromCart(cart[1..], id, kind)
      else [cart[0]] + RemoveFromCart(cart[1..], id, kind)
  }

  /** Every line with the key gets quantity `q`; nothing else changes. */
  function SetQuantity(cart: Cart, id: string, kind: Kind, q: int): (r: Cart)
    ensures |r| == |cart|
    ensures forall i | 0 <= i < |cart| ::
      r[i] == (if Matches(cart[i], id, kind) then cart[i].(quantity := q) else cart[i])
  {
    if |cart| == 0 then []
    else
      var head := if Matches(cart[0], id, kind) then cart[0].(quantity := q) else cart[0];
      [head] + SetQuantity(cart[1..], id, kind, q)
  }

  /**
   * updateQuantity (cart.js:96-108): a quantity of zero or less removes the
   * key; a positive one is set on the matching lines only, never adding one.
   */
  function UpdateQuantity(cart: Cart, id: string, kind: Kind, q: int): (r: Cart)
    ensures q <= 0 ==> r == RemoveFromCart(cart, id, kind) && !HasKey(r, id, kind)
    ensures q > 0 ==>
      && |r| == |cart|
      && (HasKey(r, id, kind) <==> HasKey(cart, id, kind))
      && forall i | 0 <= i < |cart| ::
           && r[i] == cart[i].(quantity := r[i].quantity)
           && r[i].quantity == (if Matches(cart[i], id, kind) then q else cart[i].quantity)
    ensures !HasKey(cart, id, kind) ==> r == cart
  {
    if q <= 0 then RemoveFromCart(cart, id, kind)
    else
      var r := SetQuantity(cart, id, kind, q);
      assert forall i | 0 <= i < |cart| :: Matches(r[i], id, kind) <==> Matches(cart[i], id, kind);
      assert !HasKey(cart, id, kind) ==> r == cart;
      r
  }

  /** clearCart (cart.js:111-115). */
  function ClearCart(cart: Cart): (r: Cart)
    ensures |r| == 0
  {
    []
  }

  /**
   * handleCheckout (cart.js:214-221), state change only: an empty cart is
   * left alone, any other is cleared.
   */
  function HandleCheckout(cart: Cart): (r: Cart)
    ensures |cart| == 0 ==> r == cart
    ensures |cart| > 0 ==> r == []
  {
    if |cart| == 0 then cart else ClearCart(cart)
  }

  // ---------------------------------------------------------------------
  // The calls a shopper can make
  // ---------------------------------------------------------------------

  /** One call of the cart's public operations. */
  datatype Op =
    | Add(id: string, kind: Kind, size: string, price: Option<int>, days: Option<int>)
    | Remove(id: string, kind: Kind)
    | Update(id: string, kind: Kind, quantity: int)
    | Clear
    | Checkout

  /** The cart after one call. */
  function Apply(cart: Cart, op: Op): Cart {
    match op
    case Add(id, kind, size, price, days) => AddToCart(cart, id, kind, size, price, days)
    case Remove(id, kind) => RemoveFromCart(cart, id, kind)
    case Update(id, kind, q) => UpdateQuantity(cart, id, kind, q)
    case Clear => ClearCart(cart)
    case Checkout => HandleCheckout(cart)
  }

  /** The cart after a sequence of calls, in order. */
  function Run(cart: Cart, ops: seq<Op>): Cart
    decreases |ops|
  {
    if |ops| == 0 then cart else Run(Apply(cart, ops[0]), ops[1..])
  }
}
