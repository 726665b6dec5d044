/**
 * The admin panel: the product and category tables, one shared text form
 * behind an add/edit dialog for each, deletion from the local lists, and
 * the records the dialogs submit. The whole page state is the value Panel;
 * each handler is a function on it, and AdminPanel holds it in fields.
 */
module AdminPanel {
  import opened Common
  import opened Seqs
  import opened Text
  import opened Catalog

  const FetchFailed := "Failed to fetch data"
  const UploadFailed := "Failed to upload image. Please try again."
  const SaveFailed := "Failed to save data. Please try again."
  const InvalidId := "Invalid item ID"
  const DeleteFailed := "Failed to delete item. Please try again."
  const PlaceholderImage := "https://via.placeholder.com/150"

  /** The text fields of the shared form, as typed. */
  datatype Form = Form(name: string, description: string, price: string, category: string, image: string, stock: string)

  const EmptyForm := Form("", "", "", "", "", "")

  /** Which table a delete button belongs to. */
  datatype Kind = ProductKind | CategoryKind

  datatype Panel = Panel(
    products: seq<Product>, categories: seq<Category>, loading: bool, error: Option<string>,
    openProductDialog: bool, openCategoryDialog: bool,
    selectedProduct: Option<Product>, selectedCategory: Option<Category>,
    formData: Form,
    /** The file chosen for upload, by name. */
    selectedImage: Option<string>,
    imagePreview: string,
    sent: seq<Request>)

  const Initial := Panel([], [], true, None, false, false, None, None, EmptyForm, None, "", [])

  // ---- the records the dialogs submit ----

  /** The form a product dialog opens with: the product's fields as text, or all empty. */
  function ProductForm(product: Option<Product>): (f: Form)
    ensures product.None? ==> f == EmptyForm
    ensures product.Some? ==>
      var p := product.value;
      f == Form(p.name, p.description, IntToString(p.price), p.category, p.image, IntToString(p.stock))
  {
    match product
    case None => EmptyForm
    case Some(p) => Form(p.name, p.description, IntToString(p.price), p.category, p.image, IntToString(p.stock))
  }

  /** The form a category dialog opens with: the name and description, the rest empty. */
  function CategoryForm(category: Option<Category>): (f: Form)
    ensures category.None? ==> f == EmptyForm
    ensures category.Some? ==> f == EmptyForm.(name := category.value.name, description := category.value.description)
  {
    match category
    case None => EmptyForm
    case Some(c) => EmptyForm.(name := c.name, description := c.description)
  }

  /**
   * `productData`: the form with price and stock read as numbers and the
   * image URL, or the placeholder when that URL is empty.
   */
  function ProductData(f: Form, imageUrl: string): (d: ProductDraft)
    ensures d.image == if imageUrl == "" then PlaceholderImage else imageUrl
    ensures d.image != ""
    ensures d.price == ParseInt(f.price) && d.stock == ParseInt(f.stock)
    ensures d.name == f.name && d.description == f.description && d.category == f.category
  {
    ProductDraft(f.name, f.description, ParseInt(f.price), f.category,
                 if imageUrl == "" then PlaceholderImage else imageUrl, ParseInt(f.stock))
  }

  /**
   * Opening the dialog on a product and submitting it unchanged (no file
   * chosen) submits that product's own fields: the numbers survive their
   * round trip through text, and only an empty image becomes the placeholder.
   */
  lemma EditUnchangedProduct(p: Product)
    ensures var f := ProductForm(Some(p));
      ProductData(f, f.image)
      == ProductDraft(p.name, p.description, Some(p.price), p.category,
                      if p.image == "" then PlaceholderImage else p.image, Some(p.stock))
  {
    ParseIntToString(p.price);
    ParseIntToString(p.stock);
  }

  /**
   * `categoryData`: the edited category's id, or the time stamp `now` when
   * adding (or when that id is 0, which is falsy), with name and
   * description trimmed.
   */
  function CategoryData(f: Form, selected: Option<Category>, now: int): (c: Category)
    ensures selected.Some? && selected.value.id != 0 ==> c.id == selected.value.id
    ensures selected.None? || selected.value.id == 0 ==> c.id == now
    ensures c.name == Trim(f.name) && c.description == Trim(f.description)
  {
    var id := if selected.Some? && selected.value.id != 0 then selected.value.id else now;
    Category(id, Trim(f.name), Trim(f.description))
  }

  /** The category's own fields are read back: trimmed text survives another trim. */
  lemma CategoryDataTrimmed(f: Form, selected: Option<Category>, now: int)
    ensures var c := CategoryData(f, selected, now);
      Trim(c.name) == c.name && Trim(c.description) == c.description
  {
    TrimIdempotent(f.name);
    TrimIdempotent(f.description);
  }

  // ---- category validity ----

  /** A truthy id and a name that is not blank. */
  predicate ValidCategory(c: Category) {
    c.id != 0 && Trim(c.name) != ""
  }

  /** `cleanupInvalidCategories` and the table's display filter. */
  function ValidCategories(categories: seq<Category>): (r: seq<Category>)
    ensures forall i :: 0 <= i < |r| ==> r[i] in categories && r[i].id != 0 && !IsBlank(r[i].name)
    ensures forall i :: 0 <= i < |categories| && categories[i].id != 0 && !IsBlank(categories[i].name) ==>
      categories[i] in r
  {
    Filter(categories, ValidCategory)
  }

  /** Cleaning up twice is cleaning up once. */
  lemma CleanupIdempotent(categories: seq<Category>)
    ensures ValidCategories(ValidCategories(categories)) == ValidCategories(categories)
  {
    FilterIdempotent(categories, ValidCategory);
  }

  /** Cleanup keeps the relative order of the categories it keeps. */
  lemma CleanupConcat(a: seq<Category>, b: seq<Category>)
    ensures ValidCategories(a + b) == ValidCategories(a) + ValidCategories(b)
  {
    FilterConcat(a, b, ValidCategory);
  }

  /** A category submitted from a form with a non-blank name and a non-zero id is one the table shows. */
  lemma SubmittedCategoryIsValid(f: Form, selected: Option<Category>, now: int)
    requires !IsBlank(f.name)
    requires (selected.Some? && selected.value.id != 0) || now != 0
    ensures ValidCategory(CategoryData(f, selected, now))
  {
    TrimIdempotent(f.name);
  }

  // ---- the handlers ----

  /** `fetchData`: both lists or neither; loading ends false. */
  function Fetched(p: Panel, products: Remote<seq<Product>>, categories: Remote<seq<Category>>): (r: Panel) {
    var asked := p.(sent := p.sent + [GetProducts, GetCategories], loading := false);
    if products.Succeeds? && categories.Succeeds? then
      asked.(products := products.value, categories := categories.value, error := None)
    else asked.(error := Some(FetchFailed))
  }

  /** `handleOpenProductDialog(product?)`. */
  function OpenProductDialog(p: Panel, product: Option<Product>): Panel {
    p.(selectedProduct := product, formData := ProductForm(product),
       imagePreview := if product.Some? then product.value.image else "",
       selectedImage := None, openProductDialog := true)
  }

  /** `handleOpenCategoryDialog(category?)`. */
  function OpenCategoryDialog(p: Panel, category: Option<Category>): Panel {
    p.(selectedCategory := category, formData := CategoryForm(category),
       openCategoryDialog := true, error := None)
  }

  /** `handleCloseDialog`. */
  function CloseDialog(p: Panel): Panel {
    p.(openProductDialog := false, openCategoryDialog := false, selectedProduct := None, selectedCategory := None)
  }

  /** `handleImageUpload`: a chosen file becomes the one to upload, and its data URL the preview. */
  function ImageChosen(p: Panel, file: Option<string>, preview: string): Panel {
    if file.Some? then p.(selectedImage := file, imagePreview := preview) else p
  }

  /** The save request a submit sends, given the image URL to use; None when no dialog is open. */
  function SaveRequest(p: Panel, imageUrl: string, now: int): Option<Request> {
    if p.openProductDialog then
      var d := ProductData(p.formData, imageUrl);
      Some(if p.selectedProduct.Some? then PutProduct(p.selectedProduct.value.id, d) else PostProduct(d))
    else if p.openCategoryDialog then
      var c := CategoryData(p.formData, p.selectedCategory, now);
      Some(if p.selectedCategory.Some? then PutCategory(p.selectedCategory.value.id, c) else PostCategory(c))
    else None
  }

  /**
   * `handleSubmit`. The product dialog first uploads a chosen file, and a
   * failed upload stops there. Then the save request; a failed save keeps
   * the dialog open. Otherwise the dialogs close and the lists are fetched
   * again (with the replies `products` and `categories`).
   */
  function Submit(p: Panel, upload: Remote<string>, saved: Remote<()>, now: int,
                  products: Remote<seq<Product>>, categories: Remote<seq<Category>>): Panel {
    var uploading := p.openProductDialog && p.selectedImage.Some?;
    var afterUpload := if uploading then p.(sent := p.sent + [UploadImage(p.selectedImage.value)]) else p;
    if uploading && upload.Fails? then afterUpload.(error := Some(UploadFailed))
    else
      var imageUrl := if uploading then upload.value else p.formData.image;
      Saved(afterUpload, SaveRequest(p, imageUrl, now), saved, products, categories)
  }

  /** The rest of a submit once any upload is done: the save request if there is one, then close and fetch. */
  function Saved(p: Panel, request: Option<Request>, saved: Remote<()>,
                 products: Remote<seq<Product>>, categories: Remote<seq<Category>>): Panel {
    match request
    case Some(r) =>
      var asked := p.(sent := p.sent + [r]);
      if saved.Fails? then asked.(error := Some(SaveFailed))
      else Fetched(CloseDialog(asked), products, categories)
    case None => Fetched(CloseDialog(p), products, categories)
  }

  /** The list without the entries with that id. */
  function WithoutProduct(products: seq<Product>, id: int): seq<Product> {
    Filter(products, (q: Product) => q.id != id)
  }

  function WithoutCategory(categories: seq<Category>, id: int): seq<Category> {
    Filter(categories, (c: Category) => c.id != id)
  }

  /** `handleDelete(kind, id)`, given the DELETE reply. */
  function Delete(p: Panel, kind: Kind, id: int, deleted: Remote<()>): Panel {
    if id == 0 then p.(error := Some(InvalidId))
    else
      var asked := p.(sent := p.sent + [if kind == CategoryKind then DeleteCategory(id) else DeleteProduct(id)]);
      match deleted
      case Fails(_) => asked.(error := Some(DeleteFailed))
      case Succeeds(_) =>
        if kind == CategoryKind then asked.(categories := WithoutCategory(p.categories, id), error := None)
        else asked.(products := WithoutProduct(p.products, id), error := None)
  }

  /** The panel with the invalid categories dropped. */
  function Cleanup(p: Panel): Panel {
    p.(categories := ValidCategories(p.categories))
  }

  // ---- what the handlers guarantee ----

  /**
   * A falsy id sets the error and sends nothing. A successful delete
   * removes exactly the entries with that id from the list it targets,
   * leaves the other list and clears the error; a failed one leaves both.
   */
  lemma DeleteEffect(p: Panel, kind: Kind, id: int, deleted: Remote<()>)
    ensures var r := Delete(p, kind, id, deleted);
      && (id == 0 ==> r == p.(error := Some(InvalidId)))
      && (id != 0 ==> r.sent == p.sent + [if kind == CategoryKind then DeleteCategory(id) else DeleteProduct(id)])
      && (id != 0 && deleted.Fails? ==>
            r.products == p.products && r.categories == p.categories && r.error == Some(DeleteFailed))
      && (id != 0 && deleted.Succeeds? ==> r.error == None)
      && (id != 0 && deleted.Succeeds? && kind == ProductKind ==>
            r.categories == p.categories
            && (forall i :: 0 <= i < |r.products| ==> r.products[i].id != id && r.products[i] in p.products)
            && (forall i :: 0 <= i < |p.products| && p.products[i].id != id ==> p.products[i] in r.products))
      && (id != 0 && deleted.Succeeds? && kind == CategoryKind ==>
            r.products == p.products
            && (forall i :: 0 <= i < |r.categories| ==> r.categories[i].id != id && r.categories[i] in p.categories)
            && (forall i :: 0 <= i < |p.categories| && p.categories[i].id != id ==> p.categories[i] in r.categories))
      && r.formData == p.formData && r.openProductDialog == p.openProductDialog
      && r.openCategoryDialog == p.openCategoryDialog
  {
  }

  /**
   * Opening the product dialog on a product copies its fields into the
   * form and its image into the preview; opening it empty resets every
   * field and the preview. Either way no file is chosen.
   */
  lemma OpenProductDialogEffect(p: Panel, product: Option<Product>)
    ensures var r := OpenProductDialog(p, product);
      && r.openProductDialog && r.selectedProduct == product && r.selectedImage.None?
      && (product.None? ==> r.formData == EmptyForm && r.imagePreview == "")
      && (product.Some? ==>
            r.formData.name == product.value.name && r.formData.description == product.value.description
            && r.formData.category == product.value.category && r.formData.image == product.value.image
            && ParseInt(r.formData.price) == Some(product.value.price)
            && ParseInt(r.formData.stock) == Some(product.value.stock)
            && r.imagePreview == product.value.image)
      && r.products == p.products && r.categories == p.categories && r.error == p.error && r.sent == p.sent
  {
    if product.Some? {
      ParseIntToString(product.value.price);
      ParseIntToString(product.value.stock);
    }
  }

  /** Closing leaves no dialog open and nothing selected, whatever was open. */
  lemma CloseDialogEffect(p: Panel)
    ensures var r := CloseDialog(p);
      && !r.openProductDialog && !r.openCategoryDialog && r.selectedProduct.None? && r.selectedCategory.None?
      && r.formData == p.formData && r.products == p.products && r.categories == p.categories
      && SaveRequest(r, r.formData.image, 0).None?
  {
  }

  /**
   * A failed upload sends only the upload and keeps the dialog as it was; a
   * failed save sends the request and keeps it too. Either way the lists stay.
   */
  lemma SubmitFailures(p: Panel, upload: Remote<string>, saved: Remote<()>, now: int,
                       products: Remote<seq<Product>>, categories: Remote<seq<Category>>)
    ensures var r := Submit(p, upload, saved, now, products, categories);
      && (p.openProductDialog && p.selectedImage.Some? && upload.Fails? ==>
            r == p.(sent := p.sent + [UploadImage(p.selectedImage.value)], error := Some(UploadFailed)))
      && (p.openProductDialog && p.selectedImage.None? && saved.Fails? ==>
            r == p.(sent := p.sent + [SaveRequest(p, p.formData.image, now).value], error := Some(SaveFailed)))
      && (!p.openProductDialog && p.openCategoryDialog && saved.Fails? ==>
            r == p.(sent := p.sent + [SaveRequest(p, "", now).value], error := Some(SaveFailed)))
  {
  }

  /**
   * A successful product save sends the upload (when a file was chosen)
   * and the PUT or POST of the product's data with the uploaded URL, then
   * closes both dialogs and fetches the lists again.
   */
  lemma SubmitProductSucceeds(p: Panel, upload: Remote<string>, saved: Remote<()>, now: int,
                              products: Remote<seq<Product>>, categories: Remote<seq<Category>>)
    requires p.openProductDialog && saved.Succeeds?
    requires p.selectedImage.Some? ==> upload.Succeeds?
    ensures var r := Submit(p, upload, saved, now, products, categories);
      var imageUrl := if p.selectedImage.Some? then upload.value else p.formData.image;
      var d := ProductData(p.formData, imageUrl);
      && r.sent == p.sent + (if p.selectedImage.Some? then [UploadImage(p.selectedImage.value)] else [])
                          + [if p.selectedProduct.Some? then PutProduct(p.selectedProduct.value.id, d) else PostProduct(d)]
                          + [GetProducts, GetCategories]
      && !r.openProductDialog && !r.openCategoryDialog && r.selectedProduct.None? && r.selectedCategory.None?
      && !r.loading
  {
  }

  /** A successful category save sends the category's trimmed data under its id, then closes and fetches. */
  lemma SubmitCategorySucceeds(p: Panel, upload: Remote<string>, saved: Remote<()>, now: int,
                               products: Remote<seq<Product>>, categories: Remote<seq<Category>>)
    requires !p.openProductDialog && p.openCategoryDialog && saved.Succeeds?
    ensures var r := Submit(p, upload, saved, now, products, categories);
      var c := CategoryData(p.formData, p.selectedCategory, now);
      && r.sent == p.sent + [if p.selectedCategory.Some? then PutCategory(p.selectedCategory.value.id, c) else PostCategory(c)]
                          + [GetProducts, GetCategories]
      && !r.openProductDialog && !r.openCategoryDialog && r.selectedProduct.None? && r.selectedCategory.None?
      && c.name == Trim(p.formData.name) && c.description == Trim(p.formData.description)
  {
  }

  class AdminPanel {
    var products: seq<Product>
    var categories: seq<Category>
    var loading: bool
    var error: Option<string>
    var openProductDialog: bool
    var openCategoryDialog: bool
    var selectedProduct: Option<Product>
    var selectedCategory: Option<Category>
    var formData: Form
    var selectedImage: Option<string>
    var imagePreview: string
    var sent: seq<Request>

    function State(): Panel
      reads this
    {
      Panel(products, categories, loading, error, openProductDialog, openCategoryDialog,
            selectedProduct, selectedCategory, formData, selectedImage, imagePreview, sent)
    }

    constructor()
      ensures State() == Initial
    {
      products, categories, loading, error := [], [], true, None;
      openProductDialog, openCategoryDialog, selectedProduct, selectedCategory := false, false, None, None;
      formData, selectedImage, imagePreview, sent := EmptyForm, None, "", [];
    }

    method FetchData(fetchedProducts: Remote<seq<Product>>, fetchedCategories: Remote<seq<Category>>)
      modifies this
      ensures State() == Fetched(old(State()), fetchedProducts, fetchedCategories)
    {
      loading := true;
      sent := sent + [GetProducts, GetCategories];
      if fetchedProducts.Succeeds? && fetchedCategories.Succeeds? {
        products := fetchedProducts.value;
        categories := fetchedCategories.value;
        error := None;
      } else {
        error := Some(FetchFailed);
      }
      loading := false;
    }

    method HandleOpenProductDialog(product: Option<Product>)
      modifies this
      ensures State() == OpenProductDialog(old(State()), product)
    {
      selectedProduct := product;
      formData := ProductForm(product);
      imagePreview := if product.Some? then product.value.image else "";
      selectedImage := None;
      openProductDialog := true;
    }

    method HandleOpenCategoryDialog(category: Option<Category>)
      modifies this
      ensures State() == OpenCategoryDialog(old(State()), category)
    {
      selectedCategory := category;
      formData := CategoryForm(category);
      openCategoryDialog := true;
      error := None;
    }

    method HandleCloseDialog()
      modifies this
      ensures State() == CloseDialog(old(State()))
    {
      openProductDialog := false;
      openCategoryDialog := false;
      selectedProduct := None;
      selectedCategory := None;
    }

    method HandleImageUpload(file: Option<string>, preview: string)
      modifies this
      ensures State() == ImageChosen(old(State()), file, preview)
    {
      if file.Some? {
        selectedImage := file;
        imagePreview := preview;
      }
    }

    method HandleSubmit(upload: Remote<string>, saved: Remote<()>, now: int,
                        fetchedProducts: Remote<seq<Product>>, fetchedCategories: Remote<seq<Category>>)
      modifies this
      ensures State() == Submit(old(State()), upload, saved, now, fetchedProducts, fetchedCategories)
    {
      var before := State();
      var imageUrl := formData.image;
      if openProductDialog && selectedImage.Some? {
        sent := sent + [UploadImage(selectedImage.value)];
        if upload.Fails? {
          error := Some(UploadFailed);
          return;
        }
        imageUrl := upload.value;
      }
      Save(SaveRequest(before, imageUrl, now), saved, fetchedProducts, fetchedCategories);
    }

    method Save(request: Option<Request>, saved: Remote<()>,
                fetchedProducts: Remote<seq<Product>>, fetchedCategories: Remote<seq<Category>>)
      modifies this
      ensures State() == Saved(old(State()), request, saved, fetchedProducts, fetchedCategories)
    {
      if request.Some? {
        sent := sent + [request.value];
        if saved.Fails? {
          error := Some(SaveFailed);
          return;
        }
      }
      HandleCloseDialog();
      FetchData(fetchedProducts, fetchedCategories);
    }

    method HandleDelete(kind: Kind, id: int, deleted: Remote<()>)
      modifies this
      ensures State() == Delete(old(State()), kind, id, deleted)
    {
      if id == 0 {
        error := Some(InvalidId);
        return;
      }
      sent := sent + [if kind == CategoryKind then DeleteCategory(id) else DeleteProduct(id)];
      match deleted {
        case Fails(_) =>
          error := Some(DeleteFailed);
        case Succeeds(_) =>
          if kind == CategoryKind {
            categories := WithoutCategory(categories, id);
          } else {
            products := WithoutProduct(products, id);
          }
          error := None;
      }
    }

    method CleanupInvalidCategories()
      modifies this
      ensures State() == Cleanup(old(State()))
    {
      categories := ValidCategories(categories);
    }

    /** The rows of the category table. */
    function DisplayedCategories(): (r: seq<Category>)
      reads this
      ensures r == ValidCategories(categories)
    {
      ValidCategories(categories)
    }
  }
}
