/**
 * The categories page: the product and category lists fetched together,
 * a category chip that toggles the selection, the products of the selected
 * category, and an add-to-cart button that first checks for a session.
 */
module CategoriesPage {
  import opened Common
  import opened Seqs
  import opened Catalog
  import CartContext

  const FetchFailed := "Failed to fetch data"
  const AddFailed := "Failed to add item to cart"
  const LoginRedirect := Navigation("/login", "/categories")

  /** `handleCategoryClick(name)`: clicking the selected chip clears the selection, any other chip selects it. */
  function Toggle(selected: Option<string>, name: string): (r: Option<string>)
    ensures selected == Some(name) ==> r.None?
    ensures selected != Some(name) ==> r == Some(name)
  {
    if selected == Some(name) then None else Some(name)
  }

  /**
   * A second click on the same chip restores the selection exactly when
   * there was none or it was that chip; after any other selection the two
   * clicks leave nothing selected.
   */
  lemma ToggleTwice(selected: Option<string>, name: string)
    ensures Toggle(Toggle(selected, name), name) == selected <==> selected.None? || selected == Some(name)
    ensures selected.Some? && selected != Some(name) ==> Toggle(Toggle(selected, name), name).None?
  {
  }

  /** Two clicks on "Tablets" while "Phones" is selected end with nothing selected, not "Phones". */
  lemma ToggleTwiceLosesOtherSelection()
    ensures Toggle(Toggle(Some("Phones"), "Tablets"), "Tablets") == None
  {
  }

  predicate InCategory(category: string, p: Product) {
    p.category == category
  }

  /** A selection that is absent or the empty string is falsy and shows everything. */
  predicate Selects(selected: Option<string>) {
    selected.Some? && selected.value != ""
  }

  /** `filteredProducts`. */
  function Filtered(products: seq<Product>, selected: Option<string>): (r: seq<Product>)
    ensures !Selects(selected) ==> r == products
    ensures Selects(selected) ==>
      (forall i :: 0 <= i < |r| ==> r[i] in products && r[i].category == selected.value)
      && (forall i :: 0 <= i < |products| && products[i].category == selected.value ==> products[i] in r)
  {
    if Selects(selected) then Filter(products, (p: Product) => InCategory(selected.value, p)) else products
  }

  /** The filter keeps its products in their original order: it distributes over concatenation. */
  lemma FilteredConcat(a: seq<Product>, b: seq<Product>, selected: Option<string>)
    ensures Filtered(a + b, selected) == Filtered(a, selected) + Filtered(b, selected)
  {
    if Selects(selected) {
      FilterConcat(a, b, (p: Product) => InCategory(selected.value, p));
    }
  }

  /** Selecting a category every product is in shows them all. */
  lemma FilteredAllInCategory(products: seq<Product>, category: string)
    requires forall i :: 0 <= i < |products| ==> products[i].category == category
    ensures Filtered(products, Some(category)) == products
  {
    if category != "" {
      FilterKeepsAll(products, (p: Product) => InCategory(category, p));
    }
  }

  class CategoriesPage {
    var products: seq<Product>
    var categories: seq<Category>
    var selectedCategory: Option<string>
    var loading: bool
    var error: Option<string>
    /** Where the page last navigated, if anywhere. */
    var navigation: Option<Navigation>
    var sent: seq<Request>

    constructor()
      ensures products == [] && categories == [] && selectedCategory == None
      ensures loading && error == None && navigation == None && sent == []
    {
      products, categories, selectedCategory := [], [], None;
      loading, error, navigation, sent := true, None, None, [];
    }

    /** `fetchData`: both lists or neither; loading ends false. */
    method FetchData(fetchedProducts: Remote<seq<Product>>, fetchedCategories: Remote<seq<Category>>)
      modifies this
      ensures !loading && sent == old(sent) + [GetProducts, GetCategories]
      ensures selectedCategory == old(selectedCategory) && navigation == old(navigation)
      ensures fetchedProducts.Succeeds? && fetchedCategories.Succeeds? ==>
        products == fetchedProducts.value && categories == fetchedCategories.value && error == None
      ensures fetchedProducts.Fails? || fetchedCategories.Fails? ==>
        products == old(products) && categories == old(categories) && error == Some(FetchFailed)
    {
      loading := true;
      sent := sent + [GetProducts, GetCategories];
      if fetchedProducts.Succeeds? && fetchedCategories.Succeeds? {
        products := fetchedProducts.value;
        categories := fetchedCategories.value;
        error := None;
      } else {
        error := Some(FetchFailed);
      }
      loading := false;
    }

    method HandleCategoryClick(name: string)
      modifies this`selectedCategory
      ensures selectedCategory == Toggle(old(selectedCategory), name)
    {
      if selectedCategory == Some(name) {
        selectedCategory := None;
      } else {
        selectedCategory := Some(name);
      }
    }

    /** The products the grid shows. */
    function FilteredProducts(): (r: seq<Product>)
      reads this
      ensures r == Filtered(products, selectedCategory)
    {
      Filtered(products, selectedCategory)
    }

    /**
     * `handleAddToCart(product)`. Without a session the page goes to the
     * login page and the cart is not called (`called` is None); otherwise
     * the cart's `addToCart` runs and a rejection shows the page's error.
     */
    method HandleAddToCart(isAuthenticated: bool, cart: CartContext.CartProvider, product: Product,
                           replies: CartContext.AddReplies)
      returns (called: Option<Outcome>)
      modifies this, cart
      ensures products == old(products) && selectedCategory == old(selectedCategory) && sent == old(sent)
      ensures !isAuthenticated ==>
        called.None? && navigation == Some(LoginRedirect) && error == old(error) && unchanged(cart)
      ensures isAuthenticated ==> called.Some? && navigation == old(navigation)
      ensures isAuthenticated ==> error == if called.value.Rejected? then Some(AddFailed) else old(error)
      ensures isAuthenticated && !old(cart.isAuthenticated) ==>
        called == Some(Rejected(Error(CartContext.AddLoginMessage))) && unchanged(cart)
      ensures isAuthenticated && old(cart.isAuthenticated) ==>
        CartContext.Step(called.value, cart.State()) == CartContext.Add(old(cart.State()), product.id, replies)
    {
      if !isAuthenticated {
        navigation := Some(LoginRedirect);
        return None;
      }
      var r := cart.AddToCart(product.id, replies);
      if r.Rejected? {
        error := Some(AddFailed);
      }
      called := Some(r);
    }
  }
}
