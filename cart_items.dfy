/**
 * The standalone cart list: its own copy of the remote `/cart` lines, with
 * a loading flag and an error slot. It differs from the cart context in
 * three ways: a quantity below one is ignored rather than removed, a
 * successful request does not clear an earlier error, and the list sets
 * the quantity it asked for instead of taking the server's reply.
 */
module CartItems {
  import opened Common
  import opened Catalog

  const FetchFailed := "Failed to fetch cart items"
  const UpdateFailed := "Failed to update quantity"
  const RemoveFailed := "Failed to remove item"

  /** The component's state, with the log of the requests it has sent. */
  datatype List = List(items: seq<CartItem>, loading: bool, error: Option<string>, sent: seq<Request>)

  /** The mount effect: fetch the collection; loading ends either way. */
  function Loaded(s: List, fetched: Remote<seq<CartItem>>): (r: List)
    ensures !r.loading && r.sent == s.sent + [GetCart]
    ensures fetched.Succeeds? ==> r.items == fetched.value && r.error == s.error
    ensures fetched.Fails? ==> r.items == s.items && r.error == Some(FetchFailed)
  {
    var asked := s.(sent := s.sent + [GetCart], loading := false);
    match fetched
    case Succeeds(items) => asked.(items := items)
    case Fails(_) => asked.(error := Some(FetchFailed))
  }

  /** `handleUpdateQuantity(itemId, newQuantity)`, given the PATCH reply. */
  function UpdatedQuantity(s: List, itemId: int, newQuantity: int, patched: Remote<()>): List {
    if newQuantity < 1 then s
    else
      var asked := s.(sent := s.sent + [PatchCart(itemId, newQuantity)]);
      match patched
      case Succeeds(_) => asked.(items := SetQuantity(s.items, itemId, newQuantity))
      case Fails(_) => asked.(error := Some(UpdateFailed))
  }

  /** `handleRemoveItem(itemId)`, given the DELETE reply. */
  function Removed(s: List, itemId: int, deleted: Remote<()>): List {
    var asked := s.(sent := s.sent + [DeleteCart(itemId)]);
    match deleted
    case Succeeds(_) => asked.(items := WithoutItem(s.items, itemId))
    case Fails(_) => asked.(error := Some(RemoveFailed))
  }

  /** Every line has a positive quantity. */
  predicate PositiveQuantities(items: seq<CartItem>) {
    forall i :: 0 <= i < |items| ==> items[i].quantity >= 1
  }

  /** A quantity below one sends nothing and changes nothing. */
  lemma UpdateBelowOneIgnored(s: List, itemId: int, newQuantity: int, patched: Remote<()>)
    requires newQuantity < 1
    ensures UpdatedQuantity(s, itemId, newQuantity, patched) == s
  {
  }

  /**
   * A quantity of one or more sends one PATCH. On success only the lines
   * with that id change, and only in their quantity; on failure the lines
   * stay and the error is set. The loading flag is never touched.
   */
  lemma UpdateEffect(s: List, itemId: int, newQuantity: int, patched: Remote<()>)
    requires newQuantity >= 1
    ensures var r := UpdatedQuantity(s, itemId, newQuantity, patched);
      && r.sent == s.sent + [PatchCart(itemId, newQuantity)]
      && r.loading == s.loading
      && |r.items| == |s.items|
      && (patched.Succeeds? ==>
            r.error == s.error
            && (forall i :: 0 <= i < |s.items| ==>
                  r.items[i] == if s.items[i].id == itemId then s.items[i].(quantity := newQuantity) else s.items[i]))
      && (patched.Fails? ==> r.items == s.items && r.error == Some(UpdateFailed))
  {
  }

  /** Whatever the reply, positive quantities stay positive. */
  lemma UpdateKeepsPositive(s: List, itemId: int, newQuantity: int, patched: Remote<()>)
    requires PositiveQuantities(s.items)
    ensures PositiveQuantities(UpdatedQuantity(s, itemId, newQuantity, patched).items)
  {
  }

  /**
   * With unique ids, a successful update of line k changes the total by
   * the line's price times the change in quantity.
   */
  lemma UpdateTotal(s: List, k: nat, newQuantity: int, patched: Remote<()>)
    requires k < |s.items| && UniqueIds(s.items) && newQuantity >= 1 && patched.Succeeds?
    ensures Total(UpdatedQuantity(s, s.items[k].id, newQuantity, patched).items)
         == Total(s.items) + s.items[k].product.price * (newQuantity - s.items[k].quantity)
  {
    SetQuantityTotal(s.items, k, newQuantity);
  }

  /**
   * A removal sends one DELETE. On success the lines with that id go and
   * the rest keep their order (WithoutItemConcat); on failure the lines
   * stay and the error is set.
   */
  lemma RemoveEffect(s: List, itemId: int, deleted: Remote<()>)
    ensures var r := Removed(s, itemId, deleted);
      && r.sent == s.sent + [DeleteCart(itemId)]
      && r.loading == s.loading
      && (deleted.Succeeds? ==>
            r.error == s.error
            && (forall i :: 0 <= i < |r.items| ==> r.items[i].id != itemId && r.items[i] in s.items)
            && (forall i :: 0 <= i < |s.items| && s.items[i].id != itemId ==> s.items[i] in r.items))
      && (deleted.Fails? ==> r.items == s.items && r.error == Some(RemoveFailed))
  {
  }

  /** Removing keeps positive quantities positive. */
  lemma RemoveKeepsPositive(s: List, itemId: int, deleted: Remote<()>)
    requires PositiveQuantities(s.items)
    ensures PositiveQuantities(Removed(s, itemId, deleted).items)
  {
    var r := Removed(s, itemId, deleted).items;
    forall i | 0 <= i < |r| ensures r[i].quantity >= 1 {
      assert r[i] in s.items;
    }
  }

  /** An error once set stays in view: no later handler clears it. */
  lemma ErrorIsSticky(s: List, itemId: int, q: int, patched: Remote<()>, deleted: Remote<()>, fetched: Remote<seq<CartItem>>)
    requires s.error.Some?
    ensures UpdatedQuantity(s, itemId, q, patched).error.Some?
    ensures Removed(s, itemId, deleted).error.Some?
    ensures Loaded(s, fetched).error.Some?
  {
  }

  class CartList {
    var cartItems: seq<CartItem>
    var loading: bool
    var error: Option<string>
    /** Every request sent so far, oldest first. */
    var sent: seq<Request>

    function State(): List
      reads this
    {
      List(cartItems, loading, error, sent)
    }

    /** The initial `useState` values: no lines, loading, no error. */
    constructor()
      ensures State() == List([], true, None, [])
    {
      cartItems, loading, error, sent := [], true, None, [];
    }

    /** The mount effect. */
    method Load(fetched: Remote<seq<CartItem>>)
      modifies this
      ensures State() == Loaded(old(State()), fetched)
    {
      sent := sent + [GetCart];
      match fetched {
        case Succeeds(items) =>
          cartItems := items;
          loading := false;
        case Fails(_) =>
          error := Some(FetchFailed);
          loading := false;
      }
    }

    method HandleUpdateQuantity(itemId: int, newQuantity: int, patched: Remote<()>)
      modifies this
      ensures State() == UpdatedQuantity(old(State()), itemId, newQuantity, patched)
    {
      if newQuantity < 1 {
        return;
      }
      sent := sent + [PatchCart(itemId, newQuantity)];
      match patched {
        case Succeeds(_) =>
          cartItems := SetQuantity(cartItems, itemId, newQuantity);
        case Fails(_) =>
          error := Some(UpdateFailed);
      }
    }

    method HandleRemoveItem(itemId: int, deleted: Remote<()>)
      modifies this
      ensures State() == Removed(old(State()), itemId, deleted)
    {
      sent := sent + [DeleteCart(itemId)];
      match deleted {
        case Succeeds(_) =>
          cartItems := WithoutItem(cartItems, itemId);
        case Fails(_) =>
          error := Some(RemoveFailed);
      }
    }

    /** `calculateTotal`: the sum of price times quantity over the lines. */
    function CalculateTotal(): (t: int)
      reads this
      ensures cartItems == [] ==> t == 0
      ensures forall a, b :: a + b == cartItems ==> t == Total(a) + Total(b)
    {
      TotalSplits(cartItems);
      Total(cartItems)
    }

    /** What the component renders. */
    function Render(): (v: CartView)
      reads this
      ensures v == ViewOf(loading, error, cartItems)
    {
      ViewOf(loading, error, cartItems)
    }
  }

  /** The total of a list is the sum of the totals of any two halves it splits into. */
  lemma TotalSplits(items: seq<CartItem>)
    ensures forall a, b :: a + b == items ==> Total(items) == Total(a) + Total(b)
  {
    forall a, b | a + b == items ensures Total(items) == Total(a) + Total(b) {
      TotalConcat(a, b);
    }
  }
}
