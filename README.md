# MobileHub storefront, modelled in Dafny

MobileHub is a React storefront for phones and accessories. It runs against
a mock REST API (`/products`, `/categories`, `/cart`). This project models
its client-side core:

- the **authentication context**: a registered-user directory seeded with an
  admin and a customer, the session, login, signup, password reset, password
  change and logout. Both are persisted to browser storage.
- the **cart context**: a cache of the remote `/cart` collection. It merges a
  second add of a product into that product's line, and settles every
  operation either with the error cleared or with its own message. The
  `/cart` mock of the context's tests is modelled too, with the context
  driven against it.
- the standalone **cart list**, the **cart page** and its order summary.
- the **checkout stepper**, the **change-password dialog**, the **categories
  page**, the **product list** and the **admin panel**.
- the **route table** with its protected and admin-only guards. A location matches a route without regard to ASCII case or trailing slashes.

Each React component or context whose state changes step by step is a
`class`. Its fields are the component's `useState` slots, and its handlers
are methods. A handler's `ensures` ties the new state to a pure step function
of the old state, and the lemmas about those step functions carry the
properties. A remote call is a parameter of type `Remote<T>` (the reply the
server would give, or the value the request rejects with). The requests a
component sends are logged in a `sent` field, so "sends nothing" and "sends
exactly these requests" can be stated. A navigation is an `Option<Navigation>`
field. Where a handler may or may not call a collaborator, its
`called: Option<…>` result says whether it did.

Prices, quantities and stock are integers, so totals are exact sums.

Where the test files and the code disagree, the model follows the code.
`CartContext.test.tsx:241-263` expects two lines after adding product 1
twice. `addToCart` merges the second add into the first line, so
`MockCart.CartScenario` proves one line, quantity 2, total 20.

Files and modules:

| file | module | models |
|---|---|---|
| common.dfy | Common | Option, Result, thrown values, remote replies, promise outcomes |
| seqs.dfy | Seqs | `filter` and `findIndex` with their lemmas |
| text.dfy | Text | `trim`, decimal text of integers and its strict parse |
| catalog.dfy | Catalog | products, categories, cart lines, requests, totals, cart-line list updates, the cart view |
| auth.dfy | Auth | `src/context/AuthContext.tsx` |
| cart_context.dfy | CartContext | `src/context/CartContext.tsx` |
| mock_cart.dfy | MockCart | the `/cart` mock of `src/context/__tests__/CartContext.test.tsx` |
| cart_items.dfy | CartItems | `src/features/cart/CartItems.tsx` |
| cart_page.dfy | CartPage | `src/pages/CartPage.tsx` |
| checkout.dfy | Checkout | `src/features/checkout/CheckoutStepper.tsx` |
| change_password.dfy | ChangePassword | `src/components/ChangePasswordDialog.tsx` |
| categories_page.dfy | CategoriesPage | `src/pages/CategoriesPage.tsx` |
| product_list.dfy | ProductList | `src/features/products/ProductList.tsx` |
| admin_panel.dfy | AdminPanel | `src/pages/AdminPanel.tsx` |
| routes.dfy | Routes | `src/App.tsx` |

## Model

| member | source | states |
|---|---|---|
| Seqs.Filter | src/pages/AdminPanel.tsx:254-258 | `filter` keeps exactly the elements that pass, and never adds any |
| Seqs.FilterConcat | src/pages/AdminPanel.tsx:254-258 | filtering distributes over concatenation, so kept elements keep their relative order |
| Seqs.FilterIdempotent | src/pages/AdminPanel.tsx:254-258 | filtering twice by the same test equals filtering once |
| Seqs.Find | src/context/AuthContext.tsx:77-79 | `find`/`some` as the first index that passes; None iff no element passes |
| Text.LeadingWhitespace | src/pages/AdminPanel.tsx:210-214 | the length of the input's whitespace prefix: everything before it is whitespace, the character at it is not |
| Text.TrailingStart | src/pages/AdminPanel.tsx:210-214 | where the input's whitespace suffix begins: everything from it on is whitespace, the character before it is not |
| Text.Trim | src/pages/AdminPanel.tsx:210-214 | `trim` is the slice of the input that starts after its leading whitespace, with only whitespace before and after that slice; it is empty iff the input is all whitespace, and otherwise neither starts nor ends with whitespace |
| Text.TrimIdempotent | src/pages/AdminPanel.tsx:210-214 | trimming a trimmed string changes nothing |
| Text.ParseInt | src/pages/AdminPanel.tsx:197-202 | a number is read iff the text is an optional minus followed by digits; anything else is NaN (None) |
| Text.ParseIntToString | src/pages/AdminPanel.tsx:93-119 | the decimal text the edit form shows for an integer parses back to that integer |
| Catalog.AddButtonFor | src/features/products/ProductList.tsx:122-131 | the add button is disabled iff stock is 0, which is iff it reads "Out of Stock"; otherwise it reads "Add to Cart" |
| Catalog.TotalConcat | src/features/cart/CartItems.tsx:72-77 | the total of price × quantity over a concatenation is the sum of the two totals |
| Catalog.TotalPositive | src/pages/CartPage.tsx:29-31 | with positive prices and quantities, the total is non-negative, and it is 0 iff the cart is empty |
| Catalog.ViewOf | src/pages/CartPage.tsx:33-71 | precedence of the cart view: spinner iff loading; error iff not loading and the error is non-empty; empty notice iff neither holds and there are no lines; otherwise the lines with their total |
| Catalog.WithoutItem | src/context/CartContext.tsx:108 | removal by id keeps exactly the lines with another id |
| Catalog.WithoutItemConcat | src/context/CartContext.tsx:108 | removal by id keeps the order of the lines that remain |
| Catalog.WithoutAbsentItem | src/context/CartContext.tsx:108 | removing an id no line has changes nothing |
| Catalog.ReplaceItem | src/context/CartContext.tsx:134-136 | the reply replaces exactly the lines with that id; the length and every other line stay |
| Catalog.SetQuantity | src/features/cart/CartItems.tsx:53-57 | the lines with that id get the new quantity and nothing else changes; every other line stays |
| Catalog.SetQuantityIsReplace | src/features/cart/CartItems.tsx:53-57 | with unique ids, setting line k's quantity equals replacing that line by its copy with the new quantity |
| Catalog.SetQuantityTotal | src/features/cart/CartItems.tsx:46-77 | with unique ids, setting line k to quantity q changes the total by price × (q − old quantity) |
| Catalog.SetQuantityLineTotal | src/features/cart/CartItems.tsx:53-57 | with unique ids, setting line k's quantity swaps that line's amount for the new one in the total |
| Catalog.LineTotalChange | src/features/cart/CartItems.tsx:72-77 | a line's amount changes by its price times the change in quantity |
| Catalog.FindProduct | src/context/CartContext.tsx:75 | the first line holding the product; None iff no line holds it |
| Catalog.FindItem | src/context/__tests__/CartContext.test.tsx:110-111 | the first line with the id; None iff no line has it |
| Catalog.AppendNewProduct | src/context/CartContext.tsx:82-89 | appending a line for a product the cart lacks keeps products unique |
| Catalog.ReplaceSameProduct | src/context/CartContext.tsx:134-136 | replacing a line by a record for the same product keeps products unique and changes the total by the difference of the two lines |
| Catalog.ReplaceAbsentItem | src/context/CartContext.tsx:134-136 | replacing an id no line has changes nothing |
| Auth.MatchesAlphanumericsMeaning | src/context/AuthContext.tsx:86 | the temporary-password pattern matches exactly the strings of n ASCII letters and digits |
| Auth.SeedPasswords | src/context/AuthContext.tsx:27-40 | the seeded admin password "admin123" counts as temporary and the customer's "user123" does not |
| Auth.AdminPasswordIsTemp | src/context/AuthContext.tsx:86 | "admin123" matches the eight-alphanumeric pattern |
| Auth.FindCredentials | src/context/AuthContext.tsx:77-79 | the first entry with that email and password; None iff there is none |
| Auth.IsRegisteredMeaning | src/context/AuthContext.tsx:103 | `some(u => u.email === email)` holds iff some entry has that email |
| Auth.WithPassword | src/context/AuthContext.tsx:144-150 | only the password of the entries with that email changes; ids, emails, roles and the length stay |
| Auth.Session | src/context/AuthContext.tsx:84-87 | the session is the entry without its password, plus the temporary flag |
| Auth.SeedWellFormed | src/context/AuthContext.tsx:27-40 | the seed directory has unique emails and ids 1, 2 |
| Auth.SignupKeepsWellFormed | src/context/AuthContext.tsx:103-117 | a signup with a fresh email keeps emails unique and ids sequential, and leaves the earlier entries as they were |
| Auth.WithPasswordKeepsWellFormed | src/context/AuthContext.tsx:144-150 | resetting or changing a password keeps the directory well formed |
| Auth.LoginAfterSetPassword | src/context/AuthContext.tsx:144-150 | after the password of a registered email is set, logging in with it finds an entry with that email |
| Auth.Persist | src/context/AuthContext.tsx:57-69 | storage holds a user iff there is a session, and reading it back restores the session and the directory |
| Auth.AuthProvider.constructor | src/context/AuthContext.tsx:43-55 | mounting restores the saved session and directory (the seed when none is saved) and persists them |
| Auth.AuthProvider.Login | src/context/AuthContext.tsx:71-93 | succeeds iff some entry has the credentials; the session is the first such entry with the temporary flag; otherwise "Invalid email or password" with the session unchanged |
| Auth.AuthProvider.Signup | src/context/AuthContext.tsx:95-123 | fails iff the email is already registered; otherwise appends a User with id length + 1 and logs it in without a flag |
| Auth.AuthProvider.ResetPassword | src/context/AuthContext.tsx:125-157 | fails iff no entry has the email; otherwise sets that email's password to the temporary one and returns it |
| Auth.AuthProvider.ChangePassword | src/context/AuthContext.tsx:159-186 | no session: "No user logged in"; wrong current password iff no entry matches it; success sets the new password and clears the flag |
| Auth.AuthProvider.Logout | src/context/AuthContext.tsx:188-191 | clears the session and its storage key and keeps the directory |
| Auth.SeededAdminLogin | src/context/AuthContext.tsx:27-93 | on a fresh provider the seeded admin's login gives session (1, admin, temporary) |
| Auth.SeededUserLogin | src/context/__tests__/AuthContext.test.tsx:58-66 | on a fresh provider the seeded customer's login gives session (2, user, not temporary) |
| CartContext.RemoveSettles | src/context/CartContext.tsx:100-117 | sends one DELETE; resolves iff the error is cleared; a rejection keeps the lines and sets the remove message |
| CartContext.UpdateSettles | src/context/CartContext.tsx:119-145 | below 1 it is a removal (DELETE), otherwise one PATCH; resolves iff the error is cleared; a rejection keeps the lines and sets the matching message |
| CartContext.AddSettles | src/context/CartContext.tsx:63-98 | `addToCart` resolves iff the error is cleared; a rejection keeps the lines and sets "Failed to add item to cart" |
| CartContext.AddRequests | src/context/CartContext.tsx:63-98 | the product GET first; then a POST only for a product without a line, otherwise a PATCH (or DELETE) of that line with one more unit |
| CartContext.AddMergesKnownProduct | src/context/CartContext.tsx:74-80 | a product that has a line is merged: the line is replaced by its raised copy and nothing is posted |
| CartContext.RaiseQuantity | src/context/CartContext.tsx:78 | one more unit on line k keeps products unique and raises the total by the line's price |
| CartContext.AddAppendsNewProduct | src/context/CartContext.tsx:82-90 | a new product's created line is appended and its amount added to the total; products stay unique |
| CartContext.RemoveKeepsUniqueProducts | src/context/CartContext.tsx:100-117 | removal keeps products unique and never adds lines |
| CartContext.WithoutItemUnique | src/context/CartContext.tsx:108 | filtering lines keeps products unique |
| CartContext.CartProvider.constructor | src/context/CartContext.tsx:35-37 | no lines, loading, no error, logged out, nothing sent |
| CartContext.CartProvider.FetchCartItems | src/context/CartContext.tsx:49-61 | one GET; the reply replaces the lines and clears the error, a failure sets the fetch error; loading ends false |
| CartContext.CartProvider.AuthChanged | src/context/CartContext.tsx:40-47 | logged in: fetch; logged out: empty cache, not loading, no request |
| CartContext.CartProvider.RemoveFromCart | src/context/CartContext.tsx:100-117 | logged out: rejects with the login message and changes nothing; otherwise the new state is `Remove` of the old |
| CartContext.CartProvider.UpdateQuantity | src/context/CartContext.tsx:119-145 | logged out: rejects and changes nothing; otherwise the new state is `Update` of the old |
| CartContext.CartProvider.AddToCart | src/context/CartContext.tsx:63-98 | logged out: rejects and changes nothing; otherwise the new state is `Add` of the old |
| CartContext.CartProvider.ClearError | src/context/CartContext.tsx:147 | clears the error |
| MockCart.CartServer.Lookup | src/context/__tests__/CartContext.test.tsx:110-111 | the stored record with the id; None iff no record has it |
| MockCart.CartServer.constructor | src/context/__tests__/CartContext.test.tsx:62-63 | no records, next id 1 |
| MockCart.CartServer.Get | src/context/__tests__/CartContext.test.tsx:65-67 | GET /cart returns the records |
| MockCart.CartServer.Post | src/context/__tests__/CartContext.test.tsx:85-105 | POST stores the line under the next id, appends it and returns it; ids stay increasing |
| MockCart.CartServer.Patch | src/context/__tests__/CartContext.test.tsx:107-121 | PATCH sets the quantity of the record with the id and returns it; `{}` (None) iff there is none |
| MockCart.CartServer.Delete | src/context/__tests__/CartContext.test.tsx:123-130 | DELETE drops the records with the id |
| MockCart.WithoutItemOrdered | src/context/__tests__/CartContext.test.tsx:123-130 | dropping records keeps ids increasing |
| MockCart.FindOrderedItem | src/context/__tests__/CartContext.test.tsx:110-111 | with increasing ids, record k is the one found under its id |
| MockCart.OrderedIdsUnique | src/context/__tests__/CartContext.test.tsx:85-105 | increasing ids are distinct |
| MockCart.AddThroughServer | src/context/CartContext.tsx:63-98 | against the mock, `addToCart` keeps the cache equal to the server: a new product gets one line, a known one one more unit |
| MockCart.AddKnownThroughServer | src/context/CartContext.tsx:74-80 | the merge path against the mock keeps the cache equal to the server |
| MockCart.PatchLine | src/context/__tests__/CartContext.test.tsx:107-121 | the server answers the merge PATCH with the raised line |
| MockCart.RaisedLineKeepsInvariant | src/context/CartContext.tsx:78 | one more unit on a line keeps products unique and quantities positive |
| MockCart.MergeLine | src/context/CartContext.tsx:74-80 | the context applies that reply: resolved, error cleared, line raised |
| MockCart.AddNewThroughServer | src/context/CartContext.tsx:82-90 | a new product is created by the server under its next id and appended to the cache |
| MockCart.RemoveThroughServer | src/context/CartContext.tsx:100-117 | a removal drops the line from both and keeps them in sync |
| MockCart.StartSession | src/context/CartContext.tsx:40-47 | after the seeded customer's login, the effect fetches an empty, in-sync cart |
| MockCart.CartScenario | src/context/__tests__/CartContext.test.tsx:241-263 | adding product 1 twice and then removing it gives totals 10, 20, 0 and line counts 1, 1, 0 |
| CartItems.Loaded | src/features/cart/CartItems.tsx:31-44 | one GET; success replaces the lines, failure sets the fetch error; loading ends false either way |
| CartItems.UpdateBelowOneIgnored | src/features/cart/CartItems.tsx:47 | a quantity below 1 sends nothing and changes nothing |
| CartItems.UpdateEffect | src/features/cart/CartItems.tsx:46-61 | one PATCH; success changes only the quantity of the lines with the id and keeps the error; failure keeps the lines and sets the error |
| CartItems.UpdateKeepsPositive | src/features/cart/CartItems.tsx:46-61 | positive quantities stay positive whatever the reply |
| CartItems.UpdateTotal | src/features/cart/CartItems.tsx:46-77 | with unique ids, a successful update changes the total by price × (new − old quantity) |
| CartItems.RemoveEffect | src/features/cart/CartItems.tsx:63-70 | one DELETE; success keeps exactly the lines with another id; failure keeps the lines and sets the error |
| CartItems.RemoveKeepsPositive | src/features/cart/CartItems.tsx:63-70 | removing keeps positive quantities positive |
| CartItems.ErrorIsSticky | src/features/cart/CartItems.tsx:31-70 | once an error is set, no handler clears it |
| CartItems.TotalSplits | src/features/cart/CartItems.tsx:72-77 | the total of a list is the sum of the totals of any split of it |
| CartItems.CartList.constructor | src/features/cart/CartItems.tsx:27-29 | no lines, loading, no error, nothing sent |
| CartItems.CartList.Load | src/features/cart/CartItems.tsx:31-44 | the new state is `Loaded` of the old |
| CartItems.CartList.HandleUpdateQuantity | src/features/cart/CartItems.tsx:46-61 | the new state is `UpdatedQuantity` of the old |
| CartItems.CartList.HandleRemoveItem | src/features/cart/CartItems.tsx:63-70 | the new state is `Removed` of the old |
| CartItems.CartList.CalculateTotal | src/features/cart/CartItems.tsx:72-77 | 0 for no lines, and additive over any split of the lines |
| CartItems.CartList.Render | src/features/cart/CartItems.tsx:79-87 | the shared cart view of the component's state |
| CartPage.QuantityChange | src/pages/CartPage.tsx:22-27 | a quantity is forwarded iff current + change > 0, and it is then at least 1 |
| CartPage.DecrementFromOne | src/pages/CartPage.tsx:22-27 | "−" at quantity 1 forwards nothing, so the button never removes a line |
| CartPage.ForwardedQuantityPatches | src/pages/CartPage.tsx:22-27 | a forwarded quantity always takes the context's PATCH path, never its removal path |
| CartPage.Summary | src/pages/CartPage.tsx:134-145 | subtotal and total are both the cart total; shipping is "Free" |
| CartPage.HandleQuantityChange | src/pages/CartPage.tsx:22-27 | nothing is called iff current + change ≤ 0; otherwise the cart's new state is the PATCH of current + change |
| CartPage.Render | src/pages/CartPage.tsx:33-71 | the shared cart view of the context's state |
| Checkout.Apply | src/features/checkout/CheckoutStepper.tsx:17-23 | Next adds one, Back subtracts one, Reset goes to 0 |
| Checkout.OfferedStaysInRange | src/features/checkout/CheckoutStepper.tsx:59-80 | a click on a button the screen shows keeps the step in 0..3 |
| Checkout.RunStaysInRange | src/features/checkout/CheckoutStepper.tsx:59-80 | any run of shown clicks from a step in range stays in 0..3 |
| Checkout.NextThenBack | src/features/checkout/CheckoutStepper.tsx:17-23 | Next then Back restores the step; as clicks, only before the last step, since Next there leads to the finished screen |
| Checkout.FinishedOffersOnlyReset | src/features/checkout/CheckoutStepper.tsx:59-64 | the finished screen shows only Reset, and Reset goes back to step 0 |
| Checkout.StepContent | src/features/checkout/CheckoutStepper.tsx:25-48 | "Unknown step" iff the step is not 0, 1 or 2 |
| Checkout.PrimaryLabel | src/features/checkout/CheckoutStepper.tsx:80 | "Place Order" iff at the last step, otherwise "Next" |
| Checkout.ScreenOf | src/features/checkout/CheckoutStepper.tsx:59-84 | finished iff the step is 3; otherwise the content, Back shown iff offered, and the primary label |
| Checkout.CheckoutStepper.constructor | src/features/checkout/CheckoutStepper.tsx:15 | starts at step 0 |
| Checkout.CheckoutStepper.HandleNext | src/features/checkout/CheckoutStepper.tsx:17-19 | adds one, unchecked |
| Checkout.CheckoutStepper.HandleBack | src/features/checkout/CheckoutStepper.tsx:21-23 | subtracts one, unchecked |
| Checkout.CheckoutStepper.Reset | src/features/checkout/CheckoutStepper.tsx:59-64 | goes back to step 0 |
| Checkout.CheckoutStepper.Click | src/features/checkout/CheckoutStepper.tsx:59-80 | a shown button applies its action and keeps the step in 0..3 |
| ChangePassword.Updated | src/components/ChangePasswordDialog.tsx:30-37 | the named field takes the value and the other two stay |
| ChangePassword.Validate | src/components/ChangePasswordDialog.tsx:44-53 | mismatch message iff the new passwords differ; too-short message iff they agree and are shorter than 6; no error iff they agree and have at least 6 characters |
| ChangePassword.MismatchFirst | src/components/ChangePasswordDialog.tsx:44-53 | a mismatch is reported even when the password is also too short |
| ChangePassword.TypedFormPasses | src/components/ChangePasswordDialog.tsx:30-53 | typing the same password of 6 or more characters into both new fields passes the checks |
| ChangePassword.ChangePasswordDialog.constructor | src/components/ChangePasswordDialog.tsx:22-28 | empty form, no error, not loading |
| ChangePassword.ChangePasswordDialog.HandleChange | src/components/ChangePasswordDialog.tsx:30-37 | updates the field and clears the error |
| ChangePassword.ChangePasswordDialog.HandleSubmit | src/components/ChangePasswordDialog.tsx:39-69 | `changePassword` is not called iff a local check fails, which shows its message; once called with the typed current and new passwords, it succeeds iff there is a session and a directory entry with its email and the current password; success closes the dialog, sets the new password and clears the session's temporary flag; a failure shows the thrown message; storage is persisted and loading ends false |
| CategoriesPage.Toggle | src/pages/CategoriesPage.tsx:69-71 | clicking the selected chip clears the selection; any other chip selects itself |
| CategoriesPage.ToggleTwice | src/pages/CategoriesPage.tsx:69-71 | two clicks on a chip restore the selection iff nothing or that chip was selected; after another selection they leave nothing selected |
| CategoriesPage.ToggleTwiceLosesOtherSelection | src/pages/CategoriesPage.tsx:69-71 | with "Phones" selected, two clicks on "Tablets" end with no selection |
| CategoriesPage.Filtered | src/pages/CategoriesPage.tsx:86-88 | no (or an empty) selection shows every product; otherwise exactly the products of that category |
| CategoriesPage.FilteredConcat | src/pages/CategoriesPage.tsx:86-88 | the filter keeps products in their original order |
| CategoriesPage.FilteredAllInCategory | src/pages/CategoriesPage.tsx:86-88 | selecting a category every product is in shows them all |
| CategoriesPage.CategoriesPage.constructor | src/pages/CategoriesPage.tsx:38-42 | empty lists, no selection, loading, no error |
| CategoriesPage.CategoriesPage.FetchData | src/pages/CategoriesPage.tsx:51-67 | both GETs; both lists are replaced or neither is, and the fetch error is set on failure; loading ends false |
| CategoriesPage.CategoriesPage.HandleCategoryClick | src/pages/CategoriesPage.tsx:69-71 | the selection becomes `Toggle` of the old one |
| CategoriesPage.CategoriesPage.FilteredProducts | src/pages/CategoriesPage.tsx:86-88 | the grid shows `Filtered` of the products and the selection |
| CategoriesPage.CategoriesPage.HandleAddToCart | src/pages/CategoriesPage.tsx:73-84 | logged out: goes to /login and leaves the cart alone; logged in: runs `addToCart`, and a rejection sets the page's error |
| ProductList.ShownImage | src/features/products/ProductList.tsx:46-49 | the sample image for the product's name, or the product's own image |
| ProductList.WithSampleImages | src/features/products/ProductList.tsx:46-49 | every product gets its shown image; length and order stay |
| ProductList.SubstitutionKeepsFields | src/features/products/ProductList.tsx:46-49 | only images change; a product without a sample is unchanged and one with a sample gets a non-empty image |
| ProductList.SubstitutionIdempotent | src/features/products/ProductList.tsx:46-49 | substituting twice equals substituting once |
| ProductList.AddMessage | src/features/products/ProductList.tsx:65-76 | the snackbar says success, or the thrown Error's message, or the fallback for a non-Error |
| ProductList.LoggedOutCartMessage | src/context/CartContext.tsx:64-66 | a logged-out cart's rejection shows "Please login to add items to cart" |
| ProductList.ListViewOf | src/features/products/ProductList.tsx:83-97 | spinner iff loading; alert iff not loading and the error is non-empty; otherwise the grid |
| ProductList.Buttons | src/features/products/ProductList.tsx:122-131 | each card's button is disabled, and reads "Out of Stock", iff its product's stock is 0 |
| ProductList.ProductList.constructor | src/features/products/ProductList.tsx:29-32 | no products, loading, no error, the snackbar closed |
| ProductList.ProductList.FetchProducts | src/features/products/ProductList.tsx:41-58 | one GET; success shows the products with sample images and clears the error; failure sets the error and keeps the list |
| ProductList.ProductList.HandleAddToCart | src/features/products/ProductList.tsx:60-77 | logged out: goes to /login and leaves the cart alone; logged in: runs `addToCart` and opens the snackbar with its outcome's message |
| ProductList.ProductList.HandleCloseSnackbar | src/features/products/ProductList.tsx:79-81 | closes the snackbar and keeps its message |
| ProductList.ProductList.Render | src/features/products/ProductList.tsx:83-97 | the list view of the component's state |
| AdminPanel.ProductForm | src/pages/AdminPanel.tsx:93-119 | the product dialog's form: the product's fields as text, or all empty |
| AdminPanel.CategoryForm | src/pages/AdminPanel.tsx:121-145 | the category dialog's form: name and description, the rest empty |
| AdminPanel.ProductData | src/pages/AdminPanel.tsx:197-202 | price and stock are the parsed numbers; the image is the URL, or the placeholder when the URL is empty |
| AdminPanel.EditUnchangedProduct | src/pages/AdminPanel.tsx:93-202 | submitting an unchanged edit form submits the product's own fields, with only an empty image replaced by the placeholder |
| AdminPanel.CategoryData | src/pages/AdminPanel.tsx:210-214 | the edited category's id if truthy, else `now`; name and description trimmed |
| AdminPanel.CategoryDataTrimmed | src/pages/AdminPanel.tsx:210-214 | the submitted name and description are already trimmed |
| AdminPanel.ValidCategories | src/pages/AdminPanel.tsx:254-258 | keeps exactly the categories with a non-zero id and a non-blank name |
| AdminPanel.CleanupIdempotent | src/pages/AdminPanel.tsx:254-258 | cleaning up twice equals cleaning up once |
| AdminPanel.CleanupConcat | src/pages/AdminPanel.tsx:254-258 | cleanup keeps the order of the categories it keeps |
| AdminPanel.SubmittedCategoryIsValid | src/pages/AdminPanel.tsx:210-214 | a category submitted with a non-blank name and a non-zero id is one the table shows |
| AdminPanel.DeleteEffect | src/pages/AdminPanel.tsx:230-251 | a zero id sets "Invalid item ID" and sends nothing; success removes exactly the entries with the id from the targeted list; failure keeps both lists |
| AdminPanel.OpenProductDialogEffect | src/pages/AdminPanel.tsx:93-119 | opening on a product copies its fields (numbers round-trip) and its image preview; opening empty resets them; no file is chosen |
| AdminPanel.CloseDialogEffect | src/pages/AdminPanel.tsx:147-152 | closing leaves no dialog open and nothing selected, so a submit would save nothing |
| AdminPanel.SubmitFailures | src/pages/AdminPanel.tsx:183-228 | a failed upload sends only the upload; a failed save sends its request; both keep the dialog and the lists |
| AdminPanel.SubmitProductSucceeds | src/pages/AdminPanel.tsx:183-208 | a successful product save sends the upload (if any), the PUT or POST of the product's data, then both GETs, and closes the dialogs |
| AdminPanel.SubmitCategorySucceeds | src/pages/AdminPanel.tsx:209-228 | a successful category save sends the trimmed category's PUT or POST, then both GETs, and closes the dialogs |
| AdminPanel.AdminPanel.constructor | src/pages/AdminPanel.tsx:51-68 | the initial state of every slot |
| AdminPanel.AdminPanel.FetchData | src/pages/AdminPanel.tsx:75-91 | the new state is `Fetched` of the old |
| AdminPanel.AdminPanel.HandleOpenProductDialog | src/pages/AdminPanel.tsx:93-119 | the new state is `OpenProductDialog` of the old |
| AdminPanel.AdminPanel.HandleOpenCategoryDialog | src/pages/AdminPanel.tsx:121-145 | the new state is `OpenCategoryDialog` of the old |
| AdminPanel.AdminPanel.HandleCloseDialog | src/pages/AdminPanel.tsx:147-152 | the new state is `CloseDialog` of the old |
| AdminPanel.AdminPanel.HandleImageUpload | src/pages/AdminPanel.tsx:154-164 | a chosen file becomes the upload and its data URL the preview; no file changes nothing |
| AdminPanel.AdminPanel.HandleSubmit | src/pages/AdminPanel.tsx:183-228 | the new state is `Submit` of the old |
| AdminPanel.AdminPanel.Save | src/pages/AdminPanel.tsx:203-228 | the new state is `Saved` of the old |
| AdminPanel.AdminPanel.HandleDelete | src/pages/AdminPanel.tsx:230-251 | the new state is `Delete` of the old |
| AdminPanel.AdminPanel.CleanupInvalidCategories | src/pages/AdminPanel.tsx:254-258 | the categories become the valid ones |
| AdminPanel.AdminPanel.DisplayedCategories | src/pages/AdminPanel.tsx:356-357 | the table shows the valid categories |
| Routes.StripSlashesMeaning | src/App.tsx:53-92 | dropping a location's trailing slashes keeps a prefix that does not end in a slash, and drops only slashes |
| Routes.CanonicalPath | src/App.tsx:53-92 | a path in lower case that does not end in a slash is its own canonical form |
| Routes.TableCanonical | src/App.tsx:53-92 | the canonical forms of the table's ten paths are "" for "/" and the paths themselves otherwise |
| Routes.CanonicalTableDistinct | src/App.tsx:53-92 | no two routes of the table have the same canonical form |
| Routes.Lookup | src/App.tsx:53-92 | a route of the table at an index before which no route has the key as its canonical path, and whose own canonical path is the key (so the first match); None iff no route has it |
| Routes.Guarded | src/App.tsx:31-44 | a guarded page renders iff its guard admits the session, and otherwise redirects to /login |
| Routes.TableLookup | src/App.tsx:53-92 | every location that matches a route's path, whatever its ASCII case or trailing slashes, finds exactly that route |
| Routes.VisitRoute | src/App.tsx:31-92 | visiting a route's path renders its page iff the guard admits the session, otherwise redirects to /login |
| Routes.SameCanonicalSameVisit | src/App.tsx:53-92 | two locations that differ only in ASCII case or trailing slashes show the same thing |
| Routes.CartVariantCanonical | src/App.tsx:68-75 | `/CART/` has the canonical form `/cart` |
| Routes.LoggedOutCartVariant | src/App.tsx:68-75 | logged out, `/CART/` is the protected cart route and redirects to /login |
| Routes.VisitTablePath | src/App.tsx:31-92 | a path as it stands in the table gives that route's guarded page |
| Routes.AdminReachesEveryRoute | src/App.tsx:37-44 | an administrator reaches every page |
| Routes.BrowsingRoutesOpen | src/App.tsx:54-56 | home, products and categories render for everyone |
| Routes.AccountRoutesOpen | src/App.tsx:57-59 | login, signup and forgot-password render for everyone |
| Routes.SessionRoutesProtected | src/App.tsx:60-83 | profile, cart and checkout render iff there is a session |
| Routes.AdminRouteRestricted | src/App.tsx:84-91 | the admin panel renders iff the session is an administrator's |
| Routes.LoginRenders | src/App.tsx:57 | /login renders the login page for everyone |
| Routes.LoggedOutCartLandsOnLogin | src/__tests__/App.test.tsx:76-79 | logged out, /cart ends on the login page |
| Routes.LoggedOutAdminLandsOnLogin | src/__tests__/App.test.tsx:81-84 | logged out, /admin ends on the login page |
| Routes.UserRedirectedFromAdmin | src/App.tsx:37-44 | a logged-in customer is redirected from /admin to the login page |
| Routes.UnknownPath | src/App.tsx:53-92 | any location that matches no path of the table shows no page |
| Routes.UnknownPage | src/App.tsx:53-92 | `/unknown-page` is such a location |

## Left out

- HTTP: every request is answered by a `Remote<T>` parameter, so the network, JSON bodies and request timing are not modelled.
- Interleaving: each handler runs to completion as one step. Overlapping promises, React's batched updates and stale closures are not modelled.
- Rendering: markup and styling are left out. Only the choice of view (spinner, error, empty, content), button captions and disabled flags, and the summary amounts are modelled.
- Console logging is left out: it has no effect on state.
- The simulated 500 ms delays (`setTimeout`) of the auth context: no clock is modelled.
- Auth.AuthProvider.ResetPassword: the generated password (`Math.random().toString(36).slice(-8)`) is the `tempPassword` parameter. The model does not state that it is eight alphanumerics, because the source's expression can yield fewer characters.
- `localStorage` and JSON: storage is the `Storage` value with its two keys. Malformed saved JSON and the storage of other tabs are not modelled.
- Numbers: prices are integers (minor units). `toFixed(2)` formatting, float prices and `parseFloat` are not modelled.
- Text.ParseInt is stricter than `parseFloat`/`parseInt`. Both accept leading whitespace, trailing junk and a leading "+" (as in "+7"). `parseFloat` also accepts exponents ("1e3"), a missing integer part (".5") and "Infinity". `parseInt` with no radix reads "0x1A" as 26. The model reads only an optional "-" and decimal digits, which covers the text the edit form itself produces.
- NaN: a price or stock that does not parse is None. NaN ids of the delete handler are not modelled (ids are integers).
- String lengths: the password length check counts characters, not UTF-16 code units.
- The SAMPLE_IMAGES lookup indexes a plain object. Names that are inherited keys (such as "toString") are not modelled.
- AdminPanel: the FileReader preview is the `preview` parameter, `Date.now()` is the `now` parameter, and a chosen file is named by a string.
- AdminPanel: the component has two mount effects, src/pages/AdminPanel.tsx:71-73 and 260-263, so `fetchData` runs twice on mount. The model runs the fetch once.
- AdminPanel: the second mount effect's call of `cleanupInvalidCategories` is a separate method and is not ordered against either fetch.
- MockCart: the mock's POST hard-codes product 1 in its reply. The model stores the posted line, which is the same for the product-1 scenario the tests use.
- `addToCart` is declared on a product id. Callers that pass a whole product are modelled as passing its id.
- ChangePassword.ChangePasswordDialog.HandleSubmit: the "Failed to change password" fallback for a non-Error rejection is not modelled, because the auth context only throws `Error`s.
- The `from` state passed to /login is kept as a plain path string. ProductList passes `{ pathname }` and CategoriesPage a bare string, and the model does not tell them apart.
- Pages that only render or route: HomePage, ProductsPage, ProductDetailPage, CheckoutPage, LoginPage, SignupPage, ForgotPasswordPage, ProfilePage, Layout, Footer, AppRouter and AppBar. The app bar's badge count is kept as `Catalog.QuantitySum`, with no contract.
- Routes.Lookup: the router is a library, not part of this model. Its matching is modelled as ASCII case folding plus dropping trailing slashes. The model does not capture case folding beyond ASCII, percent-decoding of the location, or route ranking. Ranking cannot change the outcome, because the table's canonical paths are distinct.
- api/server.js (the mock REST server) and its upload endpoint are not part of this model. Only the `/cart` mock of the cart context's tests is.
- CategoriesPage.ToggleTwice: "clicking a chip twice restores the selection" holds only when nothing or that chip was selected, and the lemma states exactly that (ToggleTwiceLosesOtherSelection is the counterexample).
