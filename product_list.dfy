/**
 * The product list: the fetched products with sample images substituted
 * by name, a grid of cards whose add button is disabled when out of stock,
 * and an add-to-cart handler that reports its outcome in a snackbar.
 */
module ProductList {
  import opened Common
  import opened Catalog
  import CartContext

  const FetchFailed := "Failed to fetch products"
  const AddedMessage := "Item added to cart successfully!"
  const AddFailedFallback := "Failed to add item to cart"
  const LoginRedirect := Navigation("/login", "/products")

  const PhoneImage := "https://images.unsplash.com/photo-1511707171634-5f897ff02aa9?w=500"
  const CaseImage := "https://images.unsplash.com/photo-1601597111158-2fceff292cdc?w=500"
  const ChargerImage := "https://images.unsplash.com/photo-1583863788434-e58b8f6a2f74?w=500"

  /** `SAMPLE_IMAGES`: product name to image URL. */
  const SampleImages: map<string, string> := map[
    "Smartphone X" := PhoneImage,
    "Budget Phone Y" := PhoneImage,
    "Flagship Phone Z" := PhoneImage,
    "Phone Case A" := CaseImage,
    "Wireless Charger B" := ChargerImage,
    "Screen Replacement Kit" := ChargerImage
  ]

  /** The image a product is shown with: the sample for its name, or its own (every sample URL is non-empty). */
  function ShownImage(p: Product): (image: string)
    ensures p.name in SampleImages ==> image == SampleImages[p.name]
    ensures p.name !in SampleImages ==> image == p.image
  {
    if p.name in SampleImages && SampleImages[p.name] != "" then SampleImages[p.name] else p.image
  }

  /** `{...product, image: SAMPLE_IMAGES[product.name] || product.image}` over the list. */
  function WithSampleImages(products: seq<Product>): (r: seq<Product>)
    ensures |r| == |products|
    ensures forall i :: 0 <= i < |products| ==> r[i] == products[i].(image := ShownImage(products[i]))
  {
    seq(|products|, i requires 0 <= i < |products| => products[i].(image := ShownImage(products[i])))
  }

  /**
   * Substitution touches only images: every other field, the order and the
   * length stay, and a product without a sample keeps its own image.
   */
  lemma SubstitutionKeepsFields(products: seq<Product>, i: nat)
    requires i < |products|
    ensures var q := WithSampleImages(products)[i];
      && q.(image := products[i].image) == products[i]
      && (products[i].name !in SampleImages ==> q == products[i])
      && (products[i].name in SampleImages ==> q.image == SampleImages[products[i].name] && q.image != "")
  {
  }

  /** Substitution is idempotent: a substituted list is its own substitution. */
  lemma SubstitutionIdempotent(products: seq<Product>)
    ensures WithSampleImages(WithSampleImages(products)) == WithSampleImages(products)
  {
  }

  /** The snackbar: an open flag and its message. */
  datatype Snackbar = Snackbar(open: bool, message: string)

  /** The snackbar message for how `addToCart` settled: success, the thrown Error's message, or the fallback. */
  function AddMessage(o: Outcome): (m: string)
    ensures o == Resolved ==> m == AddedMessage
    ensures o.Rejected? && o.thrown.Error? ==> m == o.thrown.message
    ensures o.Rejected? && o.thrown.NonError? ==> m == AddFailedFallback
  {
    match o
    case Resolved => AddedMessage
    case Rejected(Error(message)) => message
    case Rejected(NonError) => AddFailedFallback
  }

  /** A logged-out cart context turns an add into the login message. */
  lemma LoggedOutCartMessage()
    ensures AddMessage(Rejected(Error(CartContext.AddLoginMessage))) == "Please login to add items to cart"
  {
  }

  /** What the list renders. */
  datatype View = Loading | ErrorAlert(message: string) | Grid(products: seq<Product>)

  function ListViewOf(loading: bool, error: Option<string>, products: seq<Product>): (v: View)
    ensures v.Loading? <==> loading
    ensures v.ErrorAlert? <==> !loading && error.Some? && error.value != ""
    ensures v.ErrorAlert? ==> v.message == error.value
    ensures v.Grid? ==> v.products == products
  {
    if loading then Loading
    else if error.Some? && error.value != "" then ErrorAlert(error.value)
    else Grid(products)
  }

  /** The add button of each card in the grid, in order: disabled exactly for the products out of stock. */
  function Buttons(products: seq<Product>): (r: seq<AddButton>)
    ensures |r| == |products|
    ensures forall i :: 0 <= i < |r| ==> (r[i].disabled <==> products[i].stock == 0)
    ensures forall i :: 0 <= i < |r| ==> (r[i].caption == "Out of Stock" <==> products[i].stock == 0)
  {
    seq(|products|, i requires 0 <= i < |products| => AddButtonFor(products[i]))
  }

  class ProductList {
    var products: seq<Product>
    var loading: bool
    var error: Option<string>
    var snackbar: Snackbar
    var navigation: Option<Navigation>
    var sent: seq<Request>

    constructor()
      ensures products == [] && loading && error == None && snackbar == Snackbar(false, "")
      ensures navigation == None && sent == []
    {
      products, loading, error := [], true, None;
      snackbar, navigation, sent := Snackbar(false, ""), None, [];
    }

    /** `fetchProducts`: the fetched list with sample images; a failure keeps the old list. */
    method FetchProducts(fetched: Remote<seq<Product>>)
      modifies this
      ensures !loading && sent == old(sent) + [GetProducts]
      ensures snackbar == old(snackbar) && navigation == old(navigation)
      ensures fetched.Succeeds? ==> products == WithSampleImages(fetched.value) && error == None
      ensures fetched.Fails? ==> products == old(products) && error == Some(FetchFailed)
    {
      loading := true;
      sent := sent + [GetProducts];
      match fetched {
        case Succeeds(list) =>
          products := WithSampleImages(list);
          error := None;
        case Fails(_) =>
          error := Some(FetchFailed);
      }
      loading := false;
    }

    /**
     * `handleAddToCart(product)`: logged out, go to login and leave the cart
     * alone (`called` is None); logged in, run the cart's `addToCart` and
     * open the snackbar with the message for how it settled.
     */
    method HandleAddToCart(isAuthenticated: bool, cart: CartContext.CartProvider, product: Product,
                           replies: CartContext.AddReplies)
      returns (called: Option<Outcome>)
      modifies this, cart
      ensures products == old(products) && error == old(error) && sent == old(sent)
      ensures !isAuthenticated ==>
        called.None? && navigation == Some(LoginRedirect) && snackbar == old(snackbar) && unchanged(cart)
      ensures isAuthenticated ==>
        called.Some? && navigation == old(navigation) && snackbar == Snackbar(true, AddMessage(called.value))
      ensures isAuthenticated && !old(cart.isAuthenticated) ==>
        called == Some(Rejected(Error(CartContext.AddLoginMessage))) && unchanged(cart)
      ensures isAuthenticated && old(cart.isAuthenticated) ==>
        CartContext.Step(called.value, cart.State()) == CartContext.Add(old(cart.State()), product.id, replies)
    {
      if !isAuthenticated {
        navigation := Some(LoginRedirect);
        return None;
      }
      var r := cart.AddToCart(product.id, replies);
      snackbar := Snackbar(true, AddMessage(r));
      called := Some(r);
    }

    method HandleCloseSnackbar()
      modifies this`snackbar
      ensures snackbar == old(snackbar).(open := false)
    {
      snackbar := snackbar.(open := false);
    }

    function Render(): (v: View)
      reads this
      ensures v == ListViewOf(loading, error, products)
    {
      ListViewOf(loading, error, products)
    }
  }
}
