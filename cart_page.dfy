/**
 * The cart page: a view of the cart context with quantity buttons that
 * forward to `updateQuantity` only for a positive result, and an order
 * summary whose subtotal is its total, since shipping is free.
 */
module CartPage {
  import opened Common
  import opened Catalog
  import CartContext

  /** The quantity a +/- button asks for, or None when the result is not positive. */
  function QuantityChange(current: int, change: int): (r: Option<int>)
    ensures r.Some? <==> current + change > 0
    ensures r.Some? ==> r.value == current + change && r.value >= 1
  {
    if current + change > 0 then Some(current + change) else None
  }

  /** Decrementing from one asks for nothing: the button never removes the line. */
  lemma DecrementFromOne()
    ensures QuantityChange(1, -1).None?
  {
  }

  /**
   * A forwarded quantity is at least one, so the context patches and never
   * takes its removal path.
   */
  lemma ForwardedQuantityPatches(c: CartContext.Cart, itemId: int, current: int, change: int,
                                 patched: Remote<CartItem>, deleted: Remote<()>)
    requires QuantityChange(current, change).Some?
    ensures var q := QuantityChange(current, change).value;
      CartContext.Update(c, itemId, q, patched, deleted) == CartContext.Patch(c, itemId, q, patched)
  {
  }

  datatype OrderSummary = OrderSummary(subtotal: int, shipping: string, total: int)

  /** The order summary card. */
  function Summary(items: seq<CartItem>): (s: OrderSummary)
    ensures s.subtotal == s.total == Total(items)
    ensures s.shipping == "Free"
    ensures items == [] ==> s.total == 0
  {
    OrderSummary(Total(items), "Free", Total(items))
  }

  /** `handleQuantityChange(itemId, current, change)`: `called` is None when nothing is forwarded. */
  method HandleQuantityChange(cart: CartContext.CartProvider, itemId: int, current: int, change: int,
                              patched: Remote<CartItem>, deleted: Remote<()>)
    returns (called: Option<Outcome>)
    modifies cart
    ensures called.None? <==> current + change <= 0
    ensures called.None? ==> unchanged(cart)
    ensures called.Some? && !old(cart.isAuthenticated) ==>
      called.value == Rejected(Error(CartContext.UpdateLoginMessage)) && unchanged(cart)
    ensures called.Some? && old(cart.isAuthenticated) ==>
      CartContext.Step(called.value, cart.State())
      == CartContext.Patch(old(cart.State()), itemId, current + change, patched)
  {
    var q := QuantityChange(current, change);
    if q.None? {
      return None;
    }
    ForwardedQuantityPatches(cart.State(), itemId, current, change, patched, deleted);
    var r := cart.UpdateQuantity(itemId, q.value, patched, deleted);
    called := Some(r);
  }

  /** What the page renders for the context's state: loading, then error, then empty, then the lines. */
  function Render(cart: CartContext.CartProvider): (v: CartView)
    reads cart
    ensures v == ViewOf(cart.loading, cart.error, cart.cartItems)
  {
    ViewOf(cart.loading, cart.error, cart.cartItems)
  }
}
