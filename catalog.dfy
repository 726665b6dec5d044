/**
 * The storefront's records (products, categories, cart lines), the HTTP
 * requests the pages and contexts send for them, and the list functions
 * on cart lines that both carts and the cart page share.
 *
 * Prices are integers (minor currency units), so totals are exact.
 */
module Catalog {
  import opened Common
  import opened Seqs

  datatype Product = Product(
    id: int, name: string, price: int, description: string,
    image: string, category: string, stock: int)

  datatype Category = Category(id: int, name: string, description: string)

  /** A cart line: a quantity of one product, with a snapshot of the product. */
  datatype CartItem = CartItem(id: int, productId: int, quantity: int, product: Product)

  /** The text fields of a product as the admin form submits them. */
  datatype ProductDraft = ProductDraft(
    name: string, description: string, price: Option<int>, category: string,
    image: string, stock: Option<int>)

  /** One request to the mock REST API, as the client sends it. */
  datatype Request =
    | GetCart
    | GetProduct(productId: int)
    | PostCart(productId: int, quantity: int, product: Product)
    | PatchCart(itemId: int, quantity: int)
    | DeleteCart(itemId: int)
    | GetProducts
    | GetCategories
    | PostProduct(draft: ProductDraft)
    | PutProduct(productId: int, draft: ProductDraft)
    | DeleteProduct(productId: int)
    | PostCategory(category: Category)
    | PutCategory(categoryId: int, category: Category)
    | DeleteCategory(categoryId: int)
    | UploadImage(file: string)

  /** A client-side navigation, with the `from` location handed to the login page. */
  datatype Navigation = Navigation(path: string, from: string)

  /** The add-to-cart button of a product card. */
  datatype AddButton = AddButton(caption: string, disabled: bool)

  /** Out of stock exactly when the stock is zero: the button is then disabled and says so. */
  function AddButtonFor(p: Product): (b: AddButton)
    ensures b.disabled <==> p.stock == 0
    ensures b.disabled <==> b.caption == "Out of Stock"
    ensures !b.disabled ==> b.caption == "Add to Cart"
  {
    if p.stock == 0 then AddButton("Out of Stock", true) else AddButton("Add to Cart", false)
  }

  // ---- totals ----

  function LineTotal(item: CartItem): int {
    item.product.price * item.quantity
  }

  /**
   * `items.reduce((t, item) => t + item.product.price * item.quantity, 0)`;
   * integer addition makes the fold order irrelevant.
   */
  function Total(items: seq<CartItem>): int {
    if items == [] then 0 else LineTotal(items[0]) + Total(items[1..])
  }

  /** The total of a concatenation is the sum of the totals. */
  lemma {:induction false} TotalConcat(a: seq<CartItem>, b: seq<CartItem>)
    ensures Total(a + b) == Total(a) + Total(b)
  {
    if a == [] {
      assert a + b == b;
    } else {
      assert (a + b)[0] == a[0];
      assert (a + b)[1..] == a[1..] + b;
      TotalConcat(a[1..], b);
    }
  }

  /** A cart whose lines all have positive price and quantity has a positive total, unless empty. */
  lemma {:induction false} TotalPositive(items: seq<CartItem>)
    requires forall i :: 0 <= i < |items| ==> items[i].product.price > 0 && items[i].quantity > 0
    ensures items == [] <==> Total(items) == 0
    ensures Total(items) >= 0
  {
    if items != [] {
      TotalPositive(items[1..]);
      assert LineTotal(items[0]) > 0 by {
        assert items[0].product.price > 0 && items[0].quantity > 0;
      }
    }
  }

  /** The badge count of the app bar: `items.reduce((t, item) => t + item.quantity, 0)`. */
  function QuantitySum(items: seq<CartItem>): int {
    if items == [] then 0 else items[0].quantity + QuantitySum(items[1..])
  }

  /** What a cart view renders. */
  datatype CartView = Spinner | ErrorText(message: string) | EmptyCart | Lines(items: seq<CartItem>, total: int)

  /**
   * The render of both cart views: loading first, then a (non-empty) error,
   * then the empty-cart notice, then the lines with their total.
   */
  function ViewOf(loading: bool, error: Option<string>, items: seq<CartItem>): (v: CartView)
    ensures v.Spinner? <==> loading
    ensures v.ErrorText? <==> !loading && error.Some? && error.value != ""
    ensures v.ErrorText? ==> v.message == error.value
    ensures v.EmptyCart? <==> !loading && (error.None? || error.value == "") && items == []
    ensures v.Lines? ==> v.items == items && v.total == Total(items) && items != []
  {
    if loading then Spinner
    else if error.Some? && error.value != "" then ErrorText(error.value)
    else if items == [] then EmptyCart
    else Lines(items, Total(items))
  }

  // ---- the list updates the carts perform ----

  predicate HasOtherId(itemId: int, item: CartItem) {
    item.id != itemId
  }

  /** `items.filter(item => item.id !== itemId)`. */
  function WithoutItem(items: seq<CartItem>, itemId: int): (r: seq<CartItem>)
    ensures forall i :: 0 <= i < |r| ==> r[i].id != itemId && r[i] in items
    ensures forall i :: 0 <= i < |items| && items[i].id != itemId ==> items[i] in r
  {
    Filter(items, (item: CartItem) => HasOtherId(itemId, item))
  }

  /** Removing by id keeps the relative order of what is left. */
  lemma WithoutItemConcat(a: seq<CartItem>, b: seq<CartItem>, itemId: int)
    ensures WithoutItem(a + b, itemId) == WithoutItem(a, itemId) + WithoutItem(b, itemId)
  {
    FilterConcat(a, b, (item: CartItem) => HasOtherId(itemId, item));
  }

  /** Removing an id no line has changes nothing. */
  lemma WithoutAbsentItem(items: seq<CartItem>, itemId: int)
    requires forall i :: 0 <= i < |items| ==> items[i].id != itemId
    ensures WithoutItem(items, itemId) == items
  {
    FilterKeepsAll(items, (item: CartItem) => HasOtherId(itemId, item));
  }

  /** `items.map(item => item.id === itemId ? record : item)`. */
  function ReplaceItem(items: seq<CartItem>, itemId: int, record: CartItem): (r: seq<CartItem>)
    ensures |r| == |items|
    ensures forall i :: 0 <= i < |items| && items[i].id == itemId ==> r[i] == record
    ensures forall i :: 0 <= i < |items| && items[i].id != itemId ==> r[i] == items[i]
  {
    seq(|items|, i requires 0 <= i < |items| => if items[i].id == itemId then record else items[i])
  }

  /** `items.map(item => item.id === itemId ? {...item, quantity} : item)`. */
  function SetQuantity(items: seq<CartItem>, itemId: int, quantity: int): (r: seq<CartItem>)
    ensures |r| == |items|
    ensures forall i :: 0 <= i < |items| && items[i].id == itemId ==> r[i] == items[i].(quantity := quantity)
    ensures forall i :: 0 <= i < |items| && items[i].id != itemId ==> r[i] == items[i]
  {
    seq(|items|, i requires 0 <= i < |items| => if items[i].id == itemId then items[i].(quantity := quantity) else items[i])
  }

  /** With unique ids, setting line k's quantity is replacing that line by its copy with the new quantity. */
  lemma SetQuantityIsReplace(items: seq<CartItem>, k: nat, quantity: int)
    requires k < |items| && UniqueIds(items)
    ensures SetQuantity(items, items[k].id, quantity) == ReplaceItem(items, items[k].id, items[k].(quantity := quantity))
  {
    var a := SetQuantity(items, items[k].id, quantity);
    var b := ReplaceItem(items, items[k].id, items[k].(quantity := quantity));
    forall i | 0 <= i < |a| ensures a[i] == b[i] {
      if items[i].id == items[k].id {
        assert i == k;
      }
    }
  }

  /**
   * With unique ids, setting line k's quantity to q changes the total by
   * the line's price times the change in quantity.
   */
  lemma SetQuantityTotal(items: seq<CartItem>, k: nat, quantity: int)
    requires k < |items| && UniqueIds(items)
    ensures Total(SetQuantity(items, items[k].id, quantity))
         == Total(items) + items[k].product.price * (quantity - items[k].quantity)
  {
    SetQuantityLineTotal(items, k, quantity);
    LineTotalChange(items[k], quantity);
  }

  /** With unique ids, setting line k's quantity swaps that line's amount for the new one in the total. */
  lemma SetQuantityLineTotal(items: seq<CartItem>, k: nat, quantity: int)
    requires k < |items| && UniqueIds(items)
    ensures Total(SetQuantity(items, items[k].id, quantity))
         == Total(items) - LineTotal(items[k]) + LineTotal(items[k].(quantity := quantity))
  {
    SetQuantityIsReplace(items, k, quantity);
    ReplaceSameProduct(items, k, items[k].(quantity := quantity));
  }

  /** A line's amount changes by its price times the change in quantity. */
  lemma LineTotalChange(line: CartItem, quantity: int)
    ensures LineTotal(line.(quantity := quantity)) - LineTotal(line) == line.product.price * (quantity - line.quantity)
  {
    var p, q, q0 := line.product.price, quantity, line.quantity;
    assert p * q - p * q0 == p * (q - q0);
  }

  /** Item ids are pairwise distinct. */
  predicate UniqueIds(items: seq<CartItem>) {
    forall i, j :: 0 <= i < j < |items| ==> items[i].id != items[j].id
  }

  /** No product appears on two lines. */
  predicate UniqueProducts(items: seq<CartItem>) {
    forall i, j :: 0 <= i < j < |items| ==> items[i].productId != items[j].productId
  }

  /** `items.find(item => item.productId === productId)`, as the index of the first such line. */
  function FindProduct(items: seq<CartItem>, productId: int): (r: Option<nat>)
    ensures r.None? <==> forall i :: 0 <= i < |items| ==> items[i].productId != productId
    ensures r.Some? ==> r.value < |items| && items[r.value].productId == productId
    ensures r.Some? ==> forall j :: 0 <= j < r.value ==> items[j].productId != productId
  {
    if items == [] then None
    else if items[0].productId == productId then Some(0)
    else match FindProduct(items[1..], productId)
      case None => None
      case Some(k) => Some(k + 1)
  }

  /** The index of the first line with the given id, if any. */
  function FindItem(items: seq<CartItem>, itemId: int): (r: Option<nat>)
    ensures r.None? <==> forall i :: 0 <= i < |items| ==> items[i].id != itemId
    ensures r.Some? ==> r.value < |items| && items[r.value].id == itemId
    ensures r.Some? ==> forall j :: 0 <= j < r.value ==> items[j].id != itemId
  {
    if items == [] then None
    else if items[0].id == itemId then Some(0)
    else match FindItem(items[1..], itemId)
      case None => None
      case Some(k) => Some(k + 1)
  }

  /** Appending a line for a product the cart lacks keeps products unique. */
  lemma AppendNewProduct(items: seq<CartItem>, item: CartItem)
    requires UniqueProducts(items)
    requires FindProduct(items, item.productId).None?
    ensures UniqueProducts(items + [item])
  {
  }

  /**
   * Replacing lines by a record for the same product keeps products unique;
   * with unique ids it changes the total by the difference of the two lines.
   */
  lemma {:induction false} ReplaceSameProduct(items: seq<CartItem>, k: nat, record: CartItem)
    requires k < |items| && UniqueIds(items) && record.productId == items[k].productId
    ensures UniqueProducts(items) ==> UniqueProducts(ReplaceItem(items, items[k].id, record))
    ensures Total(ReplaceItem(items, items[k].id, record)) == Total(items) - LineTotal(items[k]) + LineTotal(record)
  {
    var r := ReplaceItem(items, items[k].id, record);
    assert r[1..] == ReplaceItem(items[1..], items[k].id, record);
    if k == 0 {
      ReplaceAbsentItem(items[1..], items[0].id, record);
    } else {
      ReplaceSameProduct(items[1..], k - 1, record);
    }
  }

  /** Replacing an id no line has changes nothing. */
  lemma ReplaceAbsentItem(items: seq<CartItem>, itemId: int, record: CartItem)
    requires forall i :: 0 <= i < |items| ==> items[i].id != itemId
    ensures ReplaceItem(items, itemId, record) == items
  {
  }
}
