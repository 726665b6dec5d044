/**
 * The cart context: a client-side cache of the remote `/cart` collection,
 * with a loading flag and an error slot. Every HTTP call is a parameter
 * of type Remote (the reply the server would give), and the requests the
 * context sends are logged in `sent`, so that "no request is made" can be
 * stated.
 */
module CartContext {
  import opened Common
  import opened Seqs
  import opened Catalog

  const AddLoginMessage := "Please login to add items to cart"
  const RemoveLoginMessage := "Please login to remove items from cart"
  const UpdateLoginMessage := "Please login to update cart"
  const FetchFailed := "Failed to fetch cart items"
  const AddFailed := "Failed to add item to cart"
  const RemoveFailed := "Failed to remove item from cart"
  const UpdateFailed := "Failed to update quantity"

  /**
   * The replies to the requests `addToCart` may send: the product fetch,
   * then either the POST of a new line or the PATCH (or, for a quantity
   * below one, the DELETE) of the existing line. A reply for a request that
   * is not sent is ignored.
   */
  datatype AddReplies = AddReplies(
    product: Remote<Product>, created: Remote<CartItem>,
    patched: Remote<CartItem>, deleted: Remote<()>)

  /** The part of the context a logged-in operation changes: the lines, the error and the request log. */
  datatype Cart = Cart(items: seq<CartItem>, error: Option<string>, sent: seq<Request>)

  /** How an operation's promise settles, and the cart it leaves. */
  datatype Step = Step(outcome: Outcome, cart: Cart)

  /** `fetchCartItems`: the fetched collection replaces the lines; a failure keeps them. */
  function Fetched(c: Cart, fetched: Remote<seq<CartItem>>): Cart {
    var asked := c.(sent := c.sent + [GetCart]);
    match fetched
    case Succeeds(items) => asked.(items := items, error := None)
    case Fails(_) => asked.(error := Some(FetchFailed))
  }

  /** A logged-in `removeFromCart(itemId)`, given the DELETE reply. */
  function Remove(c: Cart, itemId: int, deleted: Remote<()>): Step {
    var asked := c.(sent := c.sent + [DeleteCart(itemId)]);
    match deleted
    case Succeeds(_) => Step(Resolved, asked.(items := WithoutItem(c.items, itemId), error := None))
    case Fails(t) => Step(Rejected(t), asked.(error := Some(RemoveFailed)))
  }

  /** The PATCH half of a logged-in `updateQuantity`: the reply replaces every line with that id. */
  function Patch(c: Cart, itemId: int, quantity: int, patched: Remote<CartItem>): Step {
    var asked := c.(sent := c.sent + [PatchCart(itemId, quantity)]);
    match patched
    case Succeeds(item) => Step(Resolved, asked.(items := ReplaceItem(c.items, itemId, item), error := None))
    case Fails(t) => Step(Rejected(t), asked.(error := Some(UpdateFailed)))
  }

  /** A logged-in `updateQuantity(itemId, quantity)`: below one it is a removal. */
  function Update(c: Cart, itemId: int, quantity: int, patched: Remote<CartItem>, deleted: Remote<()>): Step {
    if quantity < 1 then Remove(c, itemId, deleted) else Patch(c, itemId, quantity, patched)
  }

  /**
   * A logged-in `addToCart(productId)`: fetch the product; a product that
   * already has a line goes through `updateQuantity` with one more unit,
   * otherwise a new line is posted and appended. Any failure sets the add
   * error and rethrows.
   */
  function Add(c: Cart, productId: int, replies: AddReplies): Step {
    var asked := c.(sent := c.sent + [GetProduct(productId)]);
    match replies.product
    case Fails(t) => Step(Rejected(t), asked.(error := Some(AddFailed)))
    case Succeeds(product) =>
      match FindProduct(c.items, productId)
      case Some(k) =>
        var line := c.items[k];
        var s := Update(asked, line.id, line.quantity + 1, replies.patched, replies.deleted);
        if s.outcome.Rejected? then Step(s.outcome, s.cart.(error := Some(AddFailed))) else s
      case None =>
        var posted := asked.(sent := asked.sent + [PostCart(productId, 1, product)]);
        match replies.created
        case Succeeds(item) => Step(Resolved, posted.(items := c.items + [item], error := None))
        case Fails(t) => Step(Rejected(t), posted.(error := Some(AddFailed)))
  }

  /**
   * Every operation settles exactly as its error slot says: resolved with
   * the error cleared, or rejected with its own message and the lines
   * as they were.
   */
  lemma RemoveSettles(c: Cart, itemId: int, deleted: Remote<()>)
    ensures var s := Remove(c, itemId, deleted);
      && (s.outcome == Resolved <==> s.cart.error == None)
      && (s.outcome.Rejected? ==> s.cart.items == c.items && s.cart.error == Some(RemoveFailed))
      && s.cart.sent == c.sent + [DeleteCart(itemId)]
  {
  }

  lemma UpdateSettles(c: Cart, itemId: int, quantity: int, patched: Remote<CartItem>, deleted: Remote<()>)
    ensures var s := Update(c, itemId, quantity, patched, deleted);
      && (s.outcome == Resolved <==> s.cart.error == None)
      && (s.outcome.Rejected? ==>
            s.cart.items == c.items && s.cart.error == Some(if quantity < 1 then RemoveFailed else UpdateFailed))
      && s.cart.sent == c.sent + [if quantity < 1 then DeleteCart(itemId) else PatchCart(itemId, quantity)]
  {
  }

  lemma AddSettles(c: Cart, productId: int, replies: AddReplies)
    ensures var s := Add(c, productId, replies);
      && (s.outcome == Resolved <==> s.cart.error == None)
      && (s.outcome.Rejected? ==> s.cart.items == c.items && s.cart.error == Some(AddFailed))
  {
    match replies.product {
      case Fails(_) =>
      case Succeeds(_) =>
        var k := FindProduct(c.items, productId);
        if k.Some? {
          var line := c.items[k.value];
          UpdateSettles(c.(sent := c.sent + [GetProduct(productId)]), line.id, line.quantity + 1, replies.patched, replies.deleted);
        }
    }
  }

  /**
   * The requests `addToCart` sends: the product fetch, then a POST only for
   * a product without a line, and otherwise a PATCH (or DELETE) of that line.
   */
  lemma AddRequests(c: Cart, productId: int, replies: AddReplies)
    ensures var s := Add(c, productId, replies);
      && (replies.product.Fails? ==> s.cart.sent == c.sent + [GetProduct(productId)])
      && (replies.product.Succeeds? && FindProduct(c.items, productId).None? ==>
            s.cart.sent == c.sent + [GetProduct(productId), PostCart(productId, 1, replies.product.value)])
      && (replies.product.Succeeds? && FindProduct(c.items, productId).Some? ==>
            var line := c.items[FindProduct(c.items, productId).value];
            var q := line.quantity + 1;
            s.cart.sent == c.sent + [GetProduct(productId), if q < 1 then DeleteCart(line.id) else PatchCart(line.id, q)])
  {
    if replies.product.Succeeds? {
      var k := FindProduct(c.items, productId);
      if k.Some? {
        var line := c.items[k.value];
        var asked := c.(sent := c.sent + [GetProduct(productId)]);
        UpdateSettles(asked, line.id, line.quantity + 1, replies.patched, replies.deleted);
      }
    }
  }

  /**
   * A product that already has a line is merged into it: when the server
   * answers the PATCH with that line carrying one more unit, the lines are
   * the old ones with that line replaced by its raised copy and nothing is
   * posted (RaiseQuantity then gives the new total and unique products).
   */
  lemma AddMergesKnownProduct(c: Cart, productId: int, replies: AddReplies, k: nat)
    requires FindProduct(c.items, productId) == Some(k) && c.items[k].quantity >= 0
    requires replies.product.Succeeds?
    requires replies.patched == Succeeds(c.items[k].(quantity := c.items[k].quantity + 1))
    ensures var s := Add(c, productId, replies);
      && s.outcome == Resolved
      && s.cart.items == ReplaceItem(c.items, c.items[k].id, c.items[k].(quantity := c.items[k].quantity + 1))
      && s.cart.sent == c.sent + [GetProduct(productId), PatchCart(c.items[k].id, c.items[k].quantity + 1)]
  {
    var line := c.items[k];
    var asked := c.(sent := c.sent + [GetProduct(productId)]);
    var merged := ReplaceItem(c.items, line.id, line.(quantity := line.quantity + 1));
    assert Update(asked, line.id, line.quantity + 1, replies.patched, replies.deleted)
        == Step(Resolved, Cart(merged, None, asked.sent + [PatchCart(line.id, line.quantity + 1)]));
    assert asked.sent + [PatchCart(line.id, line.quantity + 1)]
        == c.sent + [GetProduct(productId), PatchCart(line.id, line.quantity + 1)];
  }

  /**
   * With unique ids, one more unit on line k is that line replaced by its
   * raised copy: the products stay unique and the total grows by its price.
   */
  lemma RaiseQuantity(items: seq<CartItem>, k: nat)
    requires k < |items| && UniqueIds(items)
    ensures var raised := SetQuantity(items, items[k].id, items[k].quantity + 1);
      && raised == ReplaceItem(items, items[k].id, items[k].(quantity := items[k].quantity + 1))
      && Total(raised) == Total(items) + items[k].product.price
      && (UniqueProducts(items) ==> UniqueProducts(raised))
  {
    var line := items[k];
    var updated := line.(quantity := line.quantity + 1);
    SetQuantityIsReplace(items, k, line.quantity + 1);
    ReplaceSameProduct(items, k, updated);
    assert LineTotal(updated) == LineTotal(line) + line.product.price by {
      var p, q := line.product.price, line.quantity;
      assert p * (q + 1) == p * q + p;
    }
  }

  /** A product without a line gets one: the created line is appended and its amount added to the total. */
  lemma AddAppendsNewProduct(c: Cart, productId: int, replies: AddReplies)
    requires FindProduct(c.items, productId).None?
    requires replies.product.Succeeds? && replies.created.Succeeds?
    ensures var s := Add(c, productId, replies);
      && s.outcome == Resolved
      && s.cart.items == c.items + [replies.created.value]
      && Total(s.cart.items) == Total(c.items) + LineTotal(replies.created.value)
      && (UniqueProducts(c.items) && replies.created.value.productId == productId ==> UniqueProducts(s.cart.items))
  {
    var item := replies.created.value;
    TotalConcat(c.items, [item]);
    assert Total([item]) == LineTotal(item);
    if UniqueProducts(c.items) && item.productId == productId {
      AppendNewProduct(c.items, item);
    }
  }

  /** Removing a line keeps products unique and only removes lines. */
  lemma RemoveKeepsUniqueProducts(c: Cart, itemId: int, deleted: Remote<()>)
    requires UniqueProducts(c.items)
    ensures UniqueProducts(Remove(c, itemId, deleted).cart.items)
    ensures |Remove(c, itemId, deleted).cart.items| <= |c.items|
  {
    WithoutItemUnique(c.items, itemId);
  }

  /** Removing lines keeps products unique. */
  lemma {:induction false} WithoutItemUnique(items: seq<CartItem>, id: int)
    requires UniqueProducts(items)
    ensures UniqueProducts(WithoutItem(items, id))
  {
    if items != [] {
      WithoutItemUnique(items[1..], id);
      assert WithoutItem(items, id)
          == (if items[0].id != id then [items[0]] else []) + WithoutItem(items[1..], id);
      var rest := WithoutItem(items[1..], id);
      forall i | 0 <= i < |rest| ensures items[0].productId != rest[i].productId {
        assert rest[i] in items[1..];
      }
    }
  }

  class CartProvider {
    var cartItems: seq<CartItem>
    var loading: bool
    var error: Option<string>
    /** The `isAuthenticated` of the auth context, as last seen by the effect. */
    var isAuthenticated: bool
    /** Every request sent so far, oldest first. */
    var sent: seq<Request>

    function State(): Cart
      reads this
    {
      Cart(cartItems, error, sent)
    }

    /** The initial `useState` values. */
    constructor()
      ensures cartItems == [] && loading && error == None && !isAuthenticated && sent == []
    {
      cartItems, loading, error, isAuthenticated, sent := [], true, None, false, [];
    }

    method FetchCartItems(fetched: Remote<seq<CartItem>>)
      modifies this
      ensures isAuthenticated == old(isAuthenticated) && !loading
      ensures State() == Fetched(old(State()), fetched)
    {
      loading := true;
      sent := sent + [GetCart];
      match fetched {
        case Succeeds(items) =>
          cartItems := items;
          error := None;
        case Fails(_) =>
          error := Some(FetchFailed);
      }
      loading := false;
    }

    /**
     * The effect keyed on `isAuthenticated`, run on mount and on every
     * change: a logged-in user gets the fetched collection, a logged-out
     * one an empty cache and no request.
     */
    method AuthChanged(authenticated: bool, fetched: Remote<seq<CartItem>>)
      modifies this
      ensures isAuthenticated == authenticated && !loading
      ensures authenticated ==> State() == Fetched(old(State()), fetched)
      ensures !authenticated ==> State() == old(State()).(items := [])
    {
      isAuthenticated := authenticated;
      if authenticated {
        FetchCartItems(fetched);
      } else {
        cartItems := [];
        loading := false;
      }
    }

    method RemoveFromCart(itemId: int, deleted: Remote<()>) returns (r: Outcome)
      modifies this
      ensures !old(isAuthenticated) ==> r == Rejected(Error(RemoveLoginMessage)) && unchanged(this)
      ensures old(isAuthenticated) ==> isAuthenticated && !loading
      ensures old(isAuthenticated) ==> Step(r, State()) == Remove(old(State()), itemId, deleted)
    {
      if !isAuthenticated {
        return Rejected(Error(RemoveLoginMessage));
      }
      loading := true;
      sent := sent + [DeleteCart(itemId)];
      match deleted {
        case Succeeds(_) =>
          cartItems := WithoutItem(cartItems, itemId);
          error := None;
          r := Resolved;
        case Fails(t) =>
          error := Some(RemoveFailed);
          r := Rejected(t);
      }
      loading := false;
    }

    method UpdateQuantity(itemId: int, quantity: int, patched: Remote<CartItem>, deleted: Remote<()>)
      returns (r: Outcome)
      modifies this
      ensures !old(isAuthenticated) ==> r == Rejected(Error(UpdateLoginMessage)) && unchanged(this)
      ensures old(isAuthenticated) ==> isAuthenticated && !loading
      ensures old(isAuthenticated) ==> Step(r, State()) == Update(old(State()), itemId, quantity, patched, deleted)
    {
      if !isAuthenticated {
        return Rejected(Error(UpdateLoginMessage));
      }
      if quantity < 1 {
        r := RemoveFromCart(itemId, deleted);
        return;
      }
      loading := true;
      sent := sent + [PatchCart(itemId, quantity)];
      match patched {
        case Succeeds(item) =>
          cartItems := ReplaceItem(cartItems, itemId, item);
          error := None;
          r := Resolved;
        case Fails(t) =>
          error := Some(UpdateFailed);
          r := Rejected(t);
      }
      loading := false;
    }

    method AddToCart(productId: int, replies: AddReplies) returns (r: Outcome)
      modifies this
      ensures !old(isAuthenticated) ==> r == Rejected(Error(AddLoginMessage)) && unchanged(this)
      ensures old(isAuthenticated) ==> isAuthenticated && !loading
      ensures old(isAuthenticated) ==> Step(r, State()) == Add(old(State()), productId, replies)
    {
      if !isAuthenticated {
        return Rejected(Error(AddLoginMessage));
      }
      loading := true;
      sent := sent + [GetProduct(productId)];
      match replies.product {
        case Fails(t) =>
          error := Some(AddFailed);
          r := Rejected(t);
        case Succeeds(product) =>
          var existing := FindProduct(cartItems, productId);
          if existing.Some? {
            var line := cartItems[existing.value];
            r := UpdateQuantity(line.id, line.quantity + 1, replies.patched, replies.deleted);
            if r.Rejected? {
              error := Some(AddFailed);
            }
          } else {
            sent := sent + [PostCart(productId, 1, product)];
            match replies.created {
              case Succeeds(item) =>
                cartItems := cartItems + [item];
                error := None;
                r := Resolved;
              case Fails(t) =>
                error := Some(AddFailed);
                r := Rejected(t);
            }
          }
      }
      loading := false;
    }

    method ClearError()
      modifies this`error
      ensures error == None
    {
      error := None;
    }
  }
}
