/**
 * The store around the cart: the snapshot kept in local storage under
 * 'almajo-cart' and the badge count refreshed after every change
 * (updateCartUI, cart.js:134-147), with loading at start-up (cart.js:5-14,
 * 38, 300-302). Storage and the badge are fields of an immutable state
 * instead of browser side effects.
 */
module CartStore {
  import opened CartOps
  import CartLaws

  /**
   * What `localStorage.getItem` followed by `JSON.parse` yields: nothing
   * stored (null or the empty string), text that does not parse, or a
   * parsed list of lines.
   */
  datatype Saved = Absent | Corrupt | Stored(items: Cart)

  datatype Store = Store(cart: Cart, saved: Saved, badge: int)

  /** The snapshot and the badge both reflect the current cart. */
  predicate Synced(s: Store) {
    s.saved == Stored(s.cart) && s.badge == CartCount(s.cart)
  }

  /**
   * loadCart: nothing stored leaves the state alone, a corrupt snapshot
   * yields the empty cart, a parsed one replaces the cart.
   */
  function LoadCart(s: Store): (r: Store)
    ensures r.saved == s.saved && r.badge == s.badge
    ensures s.saved.Absent? ==> r == s
    ensures s.saved.Corrupt? ==> r.cart == []
    ensures s.saved.Stored? ==> r.cart == s.saved.items
  {
    match s.saved
    case Absent => s
    case Corrupt => s.(cart := [])
    case Stored(items) => s.(cart := items)
  }

  /** updateCartUI without the rendering: refresh the badge and save the cart. */
  function UpdateCartUI(s: Store): (r: Store)
    ensures r.cart == s.cart
    ensures Synced(r)
  {
    s.(saved := Stored(s.cart), badge := CartCount(s.cart))
  }

  /**
   * Start-up: the cart starts empty, is loaded, and the page-load handler
   * refreshes the badge and saves it back.
   */
  function Boot(saved: Saved, badge: int): (r: Store)
    ensures Synced(r)
    ensures saved.Stored? ==> r.cart == saved.items
    ensures !saved.Stored? ==> r.cart == []
  {
    UpdateCartUI(LoadCart(Store([], saved, badge)))
  }

  /**
   * One user action. Every operation ends with updateCartUI except a
   * checkout of an empty cart, which only shows a notice.
   */
  function Step(s: Store, op: Op): (r: Store)
    ensures r.cart == Apply(s.cart, op)
    ensures op.Checkout? && |s.cart| == 0 ==> r == s
    ensures !(op.Checkout? && |s.cart| == 0) ==> Synced(r)
  {
    if op.Checkout? && |s.cart| == 0 then s
    else UpdateCartUI(s.(cart := Apply(s.cart, op)))
  }

  function StepAll(s: Store, ops: seq<Op>): Store
    decreases |ops|
  {
    if |ops| == 0 then s else StepAll(Step(s, ops[0]), ops[1..])
  }

  // ---------------------------------------------------------------------
  // Laws of the store
  // ---------------------------------------------------------------------

  /** A store kept in sync stays in sync through any sequence of actions. */
  lemma {:induction false} StepAllKeepsSynced(s: Store, ops: seq<Op>)
    requires Synced(s)
    ensures Synced(StepAll(s, ops))
    decreases |ops|
  {
    if |ops| > 0 {
      StepAllKeepsSynced(Step(s, ops[0]), ops[1..]);
    }
  }

  /** The store's cart is exactly the cart-level run of the same actions. */
  lemma {:induction false} StepAllProjects(s: Store, ops: seq<Op>)
    ensures StepAll(s, ops).cart == Run(s.cart, ops)
    decreases |ops|
  {
    if |ops| > 0 {
      StepAllProjects(Step(s, ops[0]), ops[1..]);
    }
  }

  /**
   * Reloading the page restores the cart: the saved snapshot of a synced
   * store loads back to the same cart, and a fresh start from it too.
   */
  lemma ReloadRestores(s: Store, badge: int)
    requires Synced(s)
    ensures LoadCart(s) == s
    ensures Boot(s.saved, badge) == s
  {
  }

  /** After clearCart both the cart and its snapshot are empty, and the badge shows 0. */
  lemma ClearPersistsEmpty(s: Store)
    ensures Step(s, Clear).cart == []
    ensures Step(s, Clear).saved == Stored([])
    ensures Step(s, Clear).badge == 0
  {
  }

  /**
   * A session that starts with nothing stored or a corrupt snapshot keeps
   * distinct keys and positive quantities, and its snapshot reloads to
   * its cart.
   */
  lemma FreshSessionIsWellFormed(saved: Saved, badge: int, ops: seq<Op>)
    requires !saved.Stored?
    ensures CartLaws.WellFormed(StepAll(Boot(saved, badge), ops).cart)
    ensures LoadCart(StepAll(Boot(saved, badge), ops)).cart == StepAll(Boot(saved, badge), ops).cart
  {
    var s := Boot(saved, badge);
    StepAllProjects(s, ops);
    CartLaws.RunPreservesWellFormed([], ops);
    StepAllKeepsSynced(s, ops);
  }
}
