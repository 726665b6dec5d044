/**
 * The remote `/cart` collection as the cart tests' mock serves it, and the
 * cart context driven against it: while every reply comes from this
 * server, the context's cache equals the server's records.
 */
module MockCart {
  import opened Common
  import opened Seqs
  import opened Catalog
  import opened CartContext
  import Auth

  /**
   * The records in insertion order, with the next id to hand out. Ids are
   * handed out in increasing order, so they are distinct and the records
   * form a map from id to line.
   */
  class CartServer {
    var records: seq<CartItem>
    var nextItemId: int

    predicate Valid()
      reads this
    {
      && 1 <= nextItemId
      && (forall i, j :: 0 <= i < j < |records| ==> records[i].id < records[j].id)
      && (forall i :: 0 <= i < |records| ==> 1 <= records[i].id < nextItemId)
    }

    /** The record stored under an id, if any. */
    function Lookup(id: int): (r: Option<CartItem>)
      reads this
      ensures r.Some? ==> r.value in records && r.value.id == id
      ensures r.None? <==> forall i :: 0 <= i < |records| ==> records[i].id != id
    {
      match FindItem(records, id)
      case Some(k) => Some(records[k])
      case None => None
    }

    constructor()
      ensures records == [] && nextItemId == 1 && Valid()
    {
      records, nextItemId := [], 1;
    }

    /** GET /cart: a copy of the records. */
    method Get() returns (items: seq<CartItem>)
      ensures items == records
    {
      items := records;
    }

    /** POST /cart: store the posted line under the next id and return it. */
    method Post(productId: int, quantity: int, product: Product) returns (item: CartItem)
      requires Valid()
      modifies this
      ensures Valid()
      ensures item == CartItem(old(nextItemId), productId, quantity, product)
      ensures records == old(records) + [item] && nextItemId == old(nextItemId) + 1
    {
      item := CartItem(nextItemId, productId, quantity, product);
      records := records + [item];
      nextItemId := nextItemId + 1;
    }

    /** PATCH /cart/{id}: set the quantity of that record and return it; `{}` (None) when absent. */
    method Patch(id: int, quantity: int) returns (reply: Option<CartItem>)
      requires Valid()
      modifies this
      ensures Valid() && nextItemId == old(nextItemId)
      ensures records == SetQuantity(old(records), id, quantity)
      ensures reply.None? <==> old(Lookup(id)).None?
      ensures reply.Some? ==> reply == Some(old(Lookup(id)).value.(quantity := quantity))
    {
      var k := FindItem(records, id);
      if k.Some? {
        var updated := records[k.value].(quantity := quantity);
        records := records[k.value := updated];
        reply := Some(updated);
      } else {
        reply := None;
      }
    }

    /** DELETE /cart/{id}: drop the records with that id. */
    method Delete(id: int)
      requires Valid()
      modifies this
      ensures Valid() && nextItemId == old(nextItemId)
      ensures records == WithoutItem(old(records), id)
    {
      records := WithoutItem(records, id);
      assert forall i, j :: 0 <= i < j < |records| ==> records[i].id < records[j].id by {
        WithoutItemOrdered(old(records), id);
      }
    }
  }

  /** Removing lines keeps ids in increasing order. */
  lemma {:induction false} WithoutItemOrdered(items: seq<CartItem>, id: int)
    requires forall i, j :: 0 <= i < j < |items| ==> items[i].id < items[j].id
    ensures var r := WithoutItem(items, id);
      forall i, j :: 0 <= i < j < |r| ==> r[i].id < r[j].id
  {
    if items != [] {
      WithoutItemOrdered(items[1..], id);
      assert WithoutItem(items, id)
          == (if items[0].id != id then [items[0]] else []) + WithoutItem(items[1..], id);
      var rest := WithoutItem(items[1..], id);
      forall i | 0 <= i < |rest| ensures items[0].id < rest[i].id {
        assert rest[i] in items[1..];
      }
    }
  }

  /** With ids in increasing order, line k is the one found under its id. */
  lemma FindOrderedItem(items: seq<CartItem>, k: nat)
    requires k < |items|
    requires forall i, j :: 0 <= i < j < |items| ==> items[i].id < items[j].id
    ensures FindItem(items, items[k].id) == Some(k)
  {
    var j := FindItem(items, items[k].id).value;
    assert items[j].id == items[k].id;
  }

  /**
   * The context and the server agree: the cache is the server's records,
   * every line has a positive quantity and no product has two lines.
   */
  predicate InSync(cart: CartProvider, server: CartServer)
    reads cart, server
  {
    && server.Valid()
    && cart.cartItems == server.records
    && LinesInvariant(server.records)
  }

  /** No product has two lines and every line has a positive quantity. */
  predicate LinesInvariant(items: seq<CartItem>) {
    UniqueProducts(items) && forall i :: 0 <= i < |items| ==> items[i].quantity >= 1
  }

  /** Ids in increasing order are distinct. */
  lemma OrderedIdsUnique(items: seq<CartItem>)
    requires forall i, j :: 0 <= i < j < |items| ==> items[i].id < items[j].id
    ensures UniqueIds(items)
  {
  }

  // A reply for a request that is not sent is never read.
  const Unsent: Remote<CartItem> := Fails(NonError)
  const UnsentDelete: Remote<()> := Fails(NonError)

  /**
   * `addToCart(productId)` with every reply from the server (the product
   * fetch answered with `product`): the cache stays equal to the server, a
   * new product gets one line and a known one one more unit on its line
   * (AddAppendsNewProduct and RaiseQuantity give the totals).
   */
  method AddThroughServer(cart: CartProvider, server: CartServer, productId: int, product: Product)
    returns (r: Outcome)
    requires cart.isAuthenticated && InSync(cart, server)
    modifies cart, server
    ensures InSync(cart, server) && cart.isAuthenticated && r == Resolved && cart.error == None
    ensures FindProduct(old(cart.cartItems), productId).None? ==>
              cart.cartItems == old(cart.cartItems) + [CartItem(old(server.nextItemId), productId, 1, product)]
    ensures FindProduct(old(cart.cartItems), productId).Some? ==>
              var line := old(cart.cartItems)[FindProduct(old(cart.cartItems), productId).value];
              cart.cartItems == SetQuantity(old(cart.cartItems), line.id, line.quantity + 1)
  {
    var existing := FindProduct(cart.cartItems, productId);
    if existing.Some? {
      r := AddKnownThroughServer(cart, server, productId, product, existing.value);
    } else {
      r := AddNewThroughServer(cart, server, productId, product);
    }
  }

  /** The merge path: line k holds the product and gets one more unit. */
  method AddKnownThroughServer(cart: CartProvider, server: CartServer, productId: int, product: Product, k: nat)
    returns (r: Outcome)
    requires cart.isAuthenticated && InSync(cart, server)
    requires FindProduct(cart.cartItems, productId) == Some(k)
    modifies cart, server
    ensures InSync(cart, server) && cart.isAuthenticated && r == Resolved && cart.error == None
    ensures cart.cartItems == SetQuantity(old(cart.cartItems), old(cart.cartItems)[k].id, old(cart.cartItems)[k].quantity + 1)
  {
    var items := cart.cartItems;
    OrderedIdsUnique(items);
    RaisedLineKeepsInvariant(items, k);
    var updated := PatchLine(server, items, k);
    r := MergeLine(cart, items, productId, product, k, updated);
  }

  /** One more unit on line k keeps products unique and quantities positive. */
  lemma RaisedLineKeepsInvariant(items: seq<CartItem>, k: nat)
    requires k < |items| && UniqueIds(items) && LinesInvariant(items)
    ensures LinesInvariant(SetQuantity(items, items[k].id, items[k].quantity + 1))
  {
    RaiseQuantity(items, k);
  }

  /** The server's side of the merge: PATCH line k with one more unit, which is what it answers. */
  method PatchLine(server: CartServer, items: seq<CartItem>, k: nat) returns (updated: CartItem)
    requires server.Valid() && server.records == items && k < |items|
    modifies server
    ensures server.Valid() && server.nextItemId == old(server.nextItemId)
    ensures updated == items[k].(quantity := items[k].quantity + 1)
    ensures server.records == SetQuantity(items, items[k].id, items[k].quantity + 1)
  {
    var line := items[k];
    FindOrderedItem(items, k);
    var reply := server.Patch(line.id, line.quantity + 1);
    updated := reply.value;
  }

  /** The context's side of the merge, given the server's PATCH reply. */
  method MergeLine(cart: CartProvider, items: seq<CartItem>, productId: int, product: Product, k: nat, updated: CartItem)
    returns (r: Outcome)
    requires cart.isAuthenticated && cart.cartItems == items && UniqueIds(items)
    requires FindProduct(items, productId) == Some(k) && items[k].quantity >= 0
    requires updated == items[k].(quantity := items[k].quantity + 1)
    modifies cart
    ensures cart.isAuthenticated && r == Resolved && cart.error == None
    ensures cart.cartItems == SetQuantity(items, items[k].id, items[k].quantity + 1)
  {
    var before := cart.State();
    var replies := AddReplies(Succeeds(product), Unsent, Succeeds(updated), UnsentDelete);
    AddMergesKnownProduct(before, productId, replies, k);
    SetQuantityIsReplace(items, k, items[k].quantity + 1);
    r := cart.AddToCart(productId, replies);
  }

  /** The new-line path: the product has no line, so the server creates one and the cache appends it. */
  method AddNewThroughServer(cart: CartProvider, server: CartServer, productId: int, product: Product)
    returns (r: Outcome)
    requires cart.isAuthenticated && InSync(cart, server)
    requires FindProduct(cart.cartItems, productId).None?
    modifies cart, server
    ensures InSync(cart, server) && cart.isAuthenticated && r == Resolved && cart.error == None
    ensures cart.cartItems == old(cart.cartItems) + [CartItem(old(server.nextItemId), productId, 1, product)]
  {
    var before := cart.State();
    var item := server.Post(productId, 1, product);
    var replies := AddReplies(Succeeds(product), Succeeds(item), Unsent, UnsentDelete);
    r := cart.AddToCart(productId, replies);
    AddAppendsNewProduct(before, productId, replies);
  }

  /** `removeFromCart(itemId)` answered by the server: both drop the line. */
  method RemoveThroughServer(cart: CartProvider, server: CartServer, itemId: int) returns (r: Outcome)
    requires cart.isAuthenticated && InSync(cart, server)
    modifies cart, server
    ensures InSync(cart, server) && cart.isAuthenticated && r == Resolved && cart.error == None
    ensures cart.cartItems == WithoutItem(old(cart.cartItems), itemId)
  {
    var before := cart.State();
    server.Delete(itemId);
    r := cart.RemoveFromCart(itemId, Succeeds(()));
    RemoveKeepsUniqueProducts(before, itemId, Succeeds(()));
  }

  const TestProduct := Product(1, "Test Product", 10, "", "", "", 10)

  /**
   * The seeded user logs in through the auth context, and the cart
   * context's effect fetches the (empty) collection from a fresh server.
   */
  method StartSession() returns (cart: CartProvider, server: CartServer)
    ensures fresh(cart) && fresh(server)
    ensures cart.isAuthenticated && InSync(cart, server)
    ensures cart.cartItems == [] && server.nextItemId == 1
  {
    var auth := new Auth.AuthProvider(Auth.EmptyStorage);
    assert Auth.HasCredentials("user@mobilehub.com", "user123", auth.registeredUsers[1]);
    var login := auth.Login("user@mobilehub.com", "user123");
    server := new CartServer();
    cart := new CartProvider();
    var fetched := server.Get();
    cart.AuthChanged(auth.IsAuthenticated(), Succeeds(fetched));
  }

  /**
   * The cart scenario: log in as the seeded user, add product 1 (price 10)
   * twice, then remove its line. Totals 10, 20, 0; line counts 1, 1, 0.
   */
  method CartScenario() returns (totals: seq<int>, counts: seq<int>)
    ensures totals == [10, 20, 0] && counts == [1, 1, 0]
  {
    var cart, server := StartSession();
    var r := AddThroughServer(cart, server, 1, TestProduct);
    var first := cart.cartItems;
    assert first == [CartItem(1, 1, 1, TestProduct)];
    assert Total(first) == 10 by {
      assert first[1..] == [];
    }

    r := AddThroughServer(cart, server, 1, TestProduct);
    var second := cart.cartItems;
    assert second == [CartItem(1, 1, 2, TestProduct)] by {
      assert FindProduct(first, 1) == Some(0);
    }
    assert Total(second) == 20 by {
      assert second[1..] == [];
    }

    r := RemoveThroughServer(cart, server, 1);
    var third := cart.cartItems;
    assert third == [];
    totals := [Total(first), Total(second), Total(third)];
    counts := [|first|, |second|, |third|];
  }
}
