# A model of the shop's cart, catalog, checkout and admin logic

This project models the client-side logic of a small React and Firebase shop in Dafny. It covers:

- the cart store, which keeps a list of cart lines and derives the item count and the total;
- the catalog page's filter-then-sort pipeline and its page state;
- the two route guards;
- the checkout, sign-up and product-editor form checks;
- the admin order and product lists, and the admin dashboard's figures;
- the product service's post-fetch transforms: search, category query, category list and image URL lists;
- the quantity stepper on the product page.

State that a component or context updates in place is a `class` whose methods carry `modifies` clauses. These are:

- `CartStore.Cart`
- `Catalog.CatalogView`
- `AdminOrders.OrdersView`
- `AdminProducts.ProductsView`
- `ProductForm.ImagePicker`
- `ProductDetail.ProductDetailView`

Each method is stated against a pure function of the old state, for example `Added`, `Visible`, `WithStatus`, `WithoutProduct` or `RemoveImageAt`. Lemmas prove what those functions mean. Loops in the source are `while`/`for` loops with invariants:

- the merge search of `addToCart`;
- the required-field loop of the checkout form check;
- the category `Set` of `getCategories`;
- the upload loop of `addProduct`/`updateProduct`.

The files are:

- `types.dfy`: the records of `src/types/index.ts`.
- `seqs.dfy`, `text.dfy`, `stable_sort.dfy`: the JavaScript built-ins the core relies on.
  - `Array.prototype.filter`.
  - `slice(0, n)`.
  - `toLowerCase`, `includes` and `trim`, over ASCII.
  - `Array.prototype.sort`, which is stable (ECMAScript 2019), as an insertion sort by a key.
- `cart.dfy`, `catalog.dfy`, `product_service.dfy`, `route_gates.dfy`, `register.dfy`, `checkout.dfy`, `product_form.dfy`, `admin_orders.dfy`, `admin_products.dfy`, `dashboard.dfy`, `product_detail.dfy`: one module per source file of the core.

Prices and amounts are `real`, so arithmetic is exact. Timestamps are `int`. Ids that the source derives from `Date.now()`, and the results of remote calls, are parameters.

Behaviour of the code worth knowing:

- `AdminRoute` sends a signed-in non-admin, and a visitor who is not signed in, to `/`, not to the login page (`src/components/AdminRoute.tsx:21-23`).
- `getCategories` lists `'all'` a second time when some product has the category `'all'`. `ProductService.CategoriesStartWithAll` proves there is no duplicate only when no product has that category.
- In edit mode the product editor sends only the new files to `updateProduct`. Removing one of the product's existing images from the previews is therefore not saved (`ProductForm.PreviewsNotSaved`).

## Model

| member | source | states |
|---|---|---|
| CartStore.FindProduct | src/context/CartContext.tsx:39 | `findIndex` by product id: the first line with the id, and `None` exactly when no line has it |
| CartStore.Cart.constructor | src/context/CartContext.tsx:22-25 | the cart starts empty, as when nothing is saved under `cart` |
| CartStore.Cart.AddToCart | src/context/CartContext.tsx:37-58 | finds the product's line by a loop; the new lines are `Added(old lines)`; keeps one line per product, positive quantities, and unique ids under a fresh id; the count rises by the quantity and the total by the quantity at the unit price |
| CartStore.Cart.RemoveFromCart | src/context/CartContext.tsx:66-67 | the new lines are `Removed(old lines, id)`; keeps one line per product and positive quantities |
| CartStore.Cart.UpdateQuantity | src/context/CartContext.tsx:75-82 | a quantity below 1 leaves the cart unchanged; otherwise the lines are `Updated`; keeps uniqueness and positive quantities |
| CartStore.Cart.Increment | src/pages/CartPage.tsx:84 | the "+" button sets the line to its quantity plus one; keeps one line per product and positive quantities |
| CartStore.Cart.Decrement | src/components/cart/CartDrawer.tsx:90 | the "-" button sets `max(1, quantity - 1)` and keeps quantities positive |
| CartStore.Cart.ClearCart | src/context/CartContext.tsx:85-86 | the cart is empty, with count 0 and total 0 |
| CartStore.CountAppend | src/context/CartContext.tsx:34-35 | count and total add up over concatenated carts |
| CartStore.CountUpdateAt | src/context/CartContext.tsx:34 | replacing one line moves the count by the quantity difference |
| CartStore.TotalUpdateAt | src/context/CartContext.tsx:35 | replacing one line moves the total by the line-amount difference |
| CartStore.CountAtLeastLines | src/context/CartContext.tsx:34 | with positive quantities the item count is at least the number of lines |
| CartStore.AddMerges | src/context/CartContext.tsx:39-45 | adding a product that has a line raises only that line's quantity; the length is unchanged |
| CartStore.AddAppends | src/context/CartContext.tsx:47-56 | adding a product without a line appends a snapshot line: id, product id, name, price, first image and quantity |
| CartStore.AddPreserves | src/context/CartContext.tsx:37-58 | adding keeps one line per product and positive quantities, and keeps ids unique when the id is fresh |
| CartStore.CountAfterAdd | src/context/CartContext.tsx:34-58 | the count after adding is the old count plus the added quantity |
| CartStore.LineTotalAdd | src/context/CartContext.tsx:41-45 | raising a line's quantity adds that quantity times the line's own price |
| CartStore.TotalAfterAdd | src/context/CartContext.tsx:34-58 | the total rises by quantity times the unit price: the merged line's snapshot price, or the product's price for a new line |
| CartStore.AddAllToLast | src/context/CartContext.tsx:41-45 | repeated adds of the product on the last line accumulate the sum of the quantities on that line |
| CartStore.RepeatedAddsMerge | src/context/CartContext.tsx:37-58 | however many times a product is added, it gets one appended line whose quantity is the sum of the added quantities |
| CartStore.RemoveKeepsOthers | src/context/CartContext.tsx:66-67 | removal keeps exactly the lines with another id, in order; an absent id changes nothing |
| CartStore.RemovedTail | src/context/CartContext.tsx:67 | removal decomposes over the first line and the rest |
| CartStore.RemovePreservesProducts | src/context/CartContext.tsx:66-67 | removal keeps one line per product |
| CartStore.RemovePreservesIds | src/context/CartContext.tsx:66-67 | removal keeps line ids unique |
| CartStore.RemovePreserves | src/context/CartContext.tsx:66-67 | removal keeps product uniqueness, positive quantities and id uniqueness |
| CartStore.CountAfterRemove | src/context/CartContext.tsx:34-67 | removing a line takes exactly its quantity off the count and its amount off the total |
| CartStore.CountSplit | src/context/CartContext.tsx:34-35 | a line in the middle of the cart contributes its quantity and its amount |
| CartStore.RemovedSplit | src/context/CartContext.tsx:67 | removing the only line with the id leaves the lines before and after it, joined |
| CartStore.UpdateChangesOnlyQuantity | src/context/CartContext.tsx:77-81 | only the quantity of the lines with the id changes; other lines and fields stay |
| CartStore.UpdatePreserves | src/context/CartContext.tsx:75-82 | an update keeps product uniqueness, positive quantities and id uniqueness |
| CartStore.CountAfterUpdate | src/context/CartContext.tsx:75-82 | setting a line to q moves the count by q minus its old quantity |
| CartStore.DecrementAtOneIsNoOp | src/pages/CartPage.tsx:72 | the "-" button on a line of quantity 1 leaves the cart unchanged |
| CartStore.Scenario | src/context/CartContext.tsx:34-67 | adding a product priced 10 twice, then once more, then removing the line: counts 2, 3, 0 and totals 20, 30, 0 |
| Catalog.SelectedIsOneFilter | src/pages/ProductsPage.tsx:95-112 | the category, price and stock filters in sequence are one filter by the conjunction of their conditions |
| Catalog.VisibleIsExactlyPassing | src/pages/ProductsPage.tsx:95-134 | the shown list is a rearrangement of exactly the fetched products that pass every filter |
| Catalog.VisibleIsOrdered | src/pages/ProductsPage.tsx:115-131 | price-low is ascending by price, price-high descending, newest descending by creation time, and featured puts featured products first |
| Catalog.TiesKeepFetchedOrder | src/pages/ProductsPage.tsx:115-131 | products with equal sort keys keep their fetched order |
| Catalog.FeaturedOrderingPartitions | src/pages/ProductsPage.tsx:128-130 | the default order is the passing featured products, in fetched order, then the other passing products, in fetched order |
| Catalog.VisibleIdempotent | src/pages/ProductsPage.tsx:95-134 | running the pipeline on its own output changes nothing |
| Catalog.PriceRangeExample | src/pages/ProductsPage.tsx:105-107 | prices 5, 50 and 500 under the range [10, 100] show only the product priced 50 |
| Catalog.MinPrice | src/pages/ProductsPage.tsx:81 | `Math.min` of the prices: a price of the list that no other price undercuts |
| Catalog.MaxPrice | src/pages/ProductsPage.tsx:82 | `Math.max` of the prices: a price of the list that no other price exceeds |
| Catalog.Ceil | src/pages/ProductsPage.tsx:82 | `Math.ceil`: the least integer not below x |
| Catalog.ResetRangeCoversAll | src/pages/ProductsPage.tsx:79-84 | the reset range contains every fetched price, is tight to within 1 at both ends, and filters nothing out |
| Catalog.FetchedMatchesSelectedCategory | src/pages/ProductsPage.tsx:62-75 | after a search or category fetch, every fetched product passes the selected category; a search selects `'all'` |
| Catalog.CatalogView.constructor | src/pages/ProductsPage.tsx:37-40 | the category parameter or `'all'`, the range [0, 1000], no stock filter, featured order |
| Catalog.CatalogView.Load | src/pages/ProductsPage.tsx:58-93 | search wins over category and category over all; sets the selected category; resets the range when products came back |
| Catalog.CatalogView.ChangeCategory | src/pages/ProductsPage.tsx:136-144 | sets the category; sets the URL parameter, or deletes it for `'all'`; nothing else changes |
| Catalog.CatalogView.ChangePrice | src/pages/ProductsPage.tsx:146-148 | the range becomes the slider's values |
| Catalog.CatalogView.ChangeSort | src/pages/ProductsPage.tsx:150-152 | the sort value becomes the chosen value |
| Catalog.CatalogView.SetInStockOnly | src/pages/ProductsPage.tsx:219 | the stock filter follows the checkbox |
| Catalog.CatalogView.ClearFilters | src/pages/ProductsPage.tsx:154-166 | category `'all'`, stock filter off, range reset, the URL category removed; afterwards every fetched product is shown |
| ProductService.SearchProducts | src/services/productService.ts:80-96 | keeps exactly the products whose name or description contains the term, ignoring case |
| ProductService.SearchKeepsOrder | src/services/productService.ts:92-95 | the search keeps list order (it distributes over concatenation), and the empty term keeps every product |
| ProductService.ProductsByCategory | src/services/productService.ts:33-46 | `'all'` returns the whole collection; any other category returns exactly the products with that category |
| ProductService.GetCategories | src/services/productService.ts:160-174 | the loop yields `'all'` followed by the categories seen, in first-seen order |
| ProductService.SeenCategoriesExact | src/services/productService.ts:164-171 | each non-empty category that occurs is listed exactly once, and nothing else is |
| ProductService.FirstWithCategory | src/services/productService.ts:166-171 | the index of the first product with the category, and no earlier product has it |
| ProductService.FirstWithCategoryAppend | src/services/productService.ts:166-171 | appending a product does not move a category's first occurrence |
| ProductService.SeenCategoriesInFirstSeenOrder | src/services/productService.ts:164-173 | the categories are listed in the order of their first occurrence |
| ProductService.CategoriesStartWithAll | src/services/productService.ts:173 | `'all'` comes first, with no duplicates unless a product has the category `'all'` |
| ProductService.UploadImages | src/services/productService.ts:105-110 | one download URL per file, in file order |
| ProductService.UpdatedImages | src/services/productService.ts:129-146 | no new files leave `images` untouched; otherwise the stored images, none when the document is missing, followed by the new URLs |
| RouteGates.AdminGate | src/components/AdminRoute.tsx:13-25 | loader while loading; otherwise "/" unless an admin is signed in; renders exactly for a signed-in admin |
| RouteGates.ProtectedGate | src/components/ProtectedRoute.tsx:13-25 | loader while loading; "/login" when nobody is signed in; renders exactly for a signed-in user |
| RouteGates.AdminRenderImpliesProtectedRender | src/components/AdminRoute.tsx:21-23 | whatever the admin gate renders, the signed-in gate renders too |
| RouteGates.GatesDifferOnlyForNonAdmins | src/components/ProtectedRoute.tsx:13-25 | the signed-in gate ignores the role; the gates disagree exactly when not loading and no admin is signed in |
| Register.CheckRegisterMeaning | src/pages/RegisterPage.tsx:32-61 | accepted iff all fields are filled, the password has at least 6 characters and matches the confirmation; each rejection is the first failing check |
| Register.AnyNonEmptyEmail | src/pages/RegisterPage.tsx:32-61 | no email format is imposed |
| Register.Submit | src/pages/RegisterPage.tsx:63-79 | `signUp(email, password, name)` is called exactly when the form is accepted |
| Register.InitialFormNotSubmitted | src/pages/RegisterPage.tsx:17-22 | the empty initial form is never submitted |
| Checkout.FirstAt | src/pages/CheckoutPage.tsx:65-66 | the position of the first '@', with none before it |
| Checkout.EmailShapeIffPattern | src/pages/CheckoutPage.tsx:65-73 | the direct reading (one '@', not first; a '.' inside the domain; no white space) accepts exactly the strings the regular expression accepts |
| Checkout.PatternGivesShape | src/pages/CheckoutPage.tsx:65-66 | a string the regular expression matches has the direct shape |
| Checkout.ValidateForm | src/pages/CheckoutPage.tsx:51-76 | the loop over the required fields, then the email pattern, gives `CheckoutCheck(f)` |
| Checkout.CheckoutCheckMeaning | src/pages/CheckoutPage.tsx:51-76 | ready iff all eight required fields are filled and the email matches; a missing field is reported before a bad email; the phone plays no part |
| Checkout.InitialFormIncomplete | src/pages/CheckoutPage.tsx:30-40 | the initial form has country "US" and is rejected as incomplete |
| Checkout.HandleCheckout | src/pages/CheckoutPage.tsx:78-137 | an invalid form or an empty cart stops; a signed-in user's order carries the cart, its total and the shipping address; the cart is emptied exactly when the checkout goes through |
| ProductForm.InitialFormDataValues | src/components/admin/ProductForm.tsx:29-37 | a new product starts empty, at price 0, "clothing", in stock and not featured; an edited product starts from its own name, description, price, compare-at price (0 when missing), stock and featured flags, and its category unless that is empty, then "clothing" |
| ProductForm.CheckProductFormMeaning | src/components/admin/ProductForm.tsx:99-137 | complete iff name and description are not blank, the price is positive and an image is present; the first failing check is reported; the compare-at price is never checked |
| ProductForm.Submit | src/components/admin/ProductForm.tsx:139-170 | a save call only for a complete form: `updateProduct` with the product id when editing, `addProduct` otherwise; the form data and the new files are passed |
| ProductForm.PreviewsNotSaved | src/components/admin/ProductForm.tsx:147-156 | once a preview remains, which previews remain does not affect the save call |
| ProductForm.RemoveAt | src/components/admin/ProductForm.tsx:90-95 | `filter((_, i) => i !== index)` drops exactly the element at the index, and changes nothing for an index out of range |
| ProductForm.Previews | src/components/admin/ProductForm.tsx:83 | one preview URL per file, in file order |
| ProductForm.AddKeepsAligned | src/components/admin/ProductForm.tsx:76-86 | appending files and their previews keeps the files aligned with the last previews |
| ProductForm.RemoveImageAtKeepsAligned | src/components/admin/ProductForm.tsx:88-97 | the corrected removal keeps files and previews aligned |
| ProductForm.AsWrittenAgreesWhileOriginalsKept | src/components/admin/ProductForm.tsx:92-93 | while no original image has been removed, the as-written offset is the corrected one |
| ProductForm.RemoveAsWrittenKeepsRemovedFile | src/components/admin/ProductForm.tsx:92-93 | the input where the as-written offset leaves a file queued whose preview is gone, and the corrected removal drops it |
| ProductForm.ImagePicker.constructor | src/components/admin/ProductForm.tsx:39-40 | the previews start as the product's images, with no new files; the offset used by removal is the product's image count |
| ProductForm.ImagePicker.AddFiles | src/components/admin/ProductForm.tsx:76-86 | files and their previews are appended; alignment is kept, and so is the state where no product image was removed |
| ProductForm.ImagePicker.RemoveImage | src/components/admin/ProductForm.tsx:88-97 | as written: the preview at the index is dropped, and the file at `index - originalCount` when the index is at least `originalCount`; alignment is kept while no product image has been removed (see Findings) |
| ProductForm.ImagePicker.RemoveImageCorrected | src/components/admin/ProductForm.tsx:88-97 | with the offset corrected (see Findings): the file behind the removed preview goes too, and alignment is kept after any removal |
| AdminOrders.WithStatusEffect | src/pages/admin/AdminOrders.tsx:69-71 | the orders with the id take the new status, whatever the old one; nothing else changes |
| AdminOrders.WithStatusLastWriteWins | src/pages/admin/AdminOrders.tsx:69-71 | setting a status twice leaves the second; setting it again changes nothing |
| AdminOrders.WithStatusCommutes | src/pages/admin/AdminOrders.tsx:69-71 | status changes of different orders commute |
| AdminOrders.StatusColorsDistinct | src/pages/admin/AdminOrders.tsx:94-109 | the five statuses get five different badges, never the grey fallback |
| AdminOrders.FilterOrdersMeaning | src/pages/admin/AdminOrders.tsx:111-114 | keeps exactly the orders whose id or shipping name contains the term, ignoring case, in list order; the empty term keeps all |
| AdminOrders.OrdersView.constructor | src/pages/admin/AdminOrders.tsx:33-36 | the fetched orders, nothing selected, an empty search |
| AdminOrders.OrdersView.UpdateStatus | src/pages/admin/AdminOrders.tsx:63-92 | after a successful remote update, the list and the selected order take the status; after a failure nothing changes |
| AdminProducts.WithoutProductMeaning | src/pages/admin/AdminProducts.tsx:78 | deleting keeps exactly the products with another id, in order; an absent id changes nothing |
| AdminProducts.FilterProductsMeaning | src/pages/admin/AdminProducts.tsx:94-97 | keeps exactly the products whose name or category contains the term, ignoring case, in list order; the empty term keeps all |
| AdminProducts.ProductsView.constructor | src/pages/admin/AdminProducts.tsx:42-48 | the fetched products, nothing selected, the dialog closed |
| AdminProducts.ProductsView.AskDelete | src/pages/admin/AdminProducts.tsx:220-224 | selects the product and opens the confirmation dialog |
| AdminProducts.ProductsView.DeleteSelected | src/pages/admin/AdminProducts.tsx:73-92 | deletes the selected product and closes the dialog only after a successful remote delete; otherwise nothing changes |
| Dashboard.RevenueAppend | src/pages/admin/AdminDashboard.tsx:38 | revenue adds up over concatenated order lists |
| Dashboard.RevenueIgnoresStatus | src/pages/admin/AdminDashboard.tsx:38 | revenue counts every order whatever its status, cancelled included |
| Dashboard.LowStockCountMeaning | src/pages/admin/AdminDashboard.tsx:41 | the low-stock count is at most the product count, adds up over parts, and is 0 iff everything is in stock |
| Dashboard.DashboardMetrics | src/pages/admin/AdminDashboard.tsx:38-41 | the order and product counts are the list lengths, low stock is at most the product count, and no orders means no revenue |
| Dashboard.RecentOrdersMeaning | src/pages/admin/AdminDashboard.tsx:44-46 | at most five orders, newest first, all from the fetched orders |
| Dashboard.RecentOrdersNoNewerOmitted | src/pages/admin/AdminDashboard.tsx:44-46 | no order left out of the recent list is newer than one shown |
| Dashboard.Inventory | src/pages/admin/AdminDashboard.tsx:188-205 | the first min(n, 5) products, in list order |
| ProductDetail.ButtonRules | src/pages/ProductDetailPage.tsx:212-231 | out of stock disables all three buttons; an enabled minus never asks for less than 1 |
| ProductDetail.CompareAtRule | src/pages/ProductDetailPage.tsx:163 | the struck-through price shows only above the price, and for a non-negative price exactly when present and above it |
| ProductDetail.FilledStarsCount | src/pages/ProductDetailPage.tsx:174-177 | the number of filled stars is floor(rating), clamped to 0..5 |
| ProductDetail.ProductDetailView.constructor | src/pages/ProductDetailPage.tsx:20-23 | no product, quantity 1, first image |
| ProductDetail.ProductDetailView.ProductFetched | src/pages/ProductDetailPage.tsx:34-38 | a found product replaces the shown one and resets the image; a missing one changes nothing |
| ProductDetail.ProductDetailView.ChangeQuantity | src/pages/ProductDetailPage.tsx:55-59 | values below 1 are ignored, so the quantity stays at least 1 |
| ProductDetail.ProductDetailView.Minus | src/pages/ProductDetailPage.tsx:212-213 | decrements only when enabled; the quantity stays at least 1 |
| ProductDetail.ProductDetailView.Plus | src/pages/ProductDetailPage.tsx:221-222 | increments only when in stock |
| ProductDetail.ProductDetailView.AddToCart | src/pages/ProductDetailPage.tsx:61-65 | adds the loaded product with the chosen quantity; the count rises by the quantity; nothing without a product |
| StableSort.SortSorted | src/pages/ProductsPage.tsx:115-131 | the sort orders by the comparator's key |
| StableSort.SortStable | src/pages/ProductsPage.tsx:115-131 | the sort is stable: equal keys keep their input order |
| Text.TrimEmptyIffBlank | src/components/admin/ProductForm.tsx:100-109 | `trim()` is empty exactly for a string of white space |
| Text.TermCaseIgnored | src/services/productService.ts:93-94 | lower-casing the term does not change the match |

## Left out

- Persistence of the cart under the `cart` key in localStorage (src/context/CartContext.tsx:22-32): this is browser I/O. The cart starts empty.
- Firestore and Firebase Auth reads and writes, Storage uploads, and `paymentService`: each remote call is a parameter, either its result or a `...Throws` flag.
- The order in which Firestore returns documents is not modelled: lists arrive in whatever order the caller passes.
- The `orderService.createOrder` document write (status "pending", `createdAt`) is not modelled. `Checkout.HandleCheckout` states the arguments it passes.
- The tax, `toFixed` and `parseFloat`: prices and sums are exact reals, so IEEE 754 rounding and NaN are not modelled.
- `toLowerCase` and `trim` are modelled over ASCII letters and the JavaScript white-space set. Unicode case mapping and UTF-16 lengths are not modelled.
- Toasts, navigation, loading and `isSubmitting` flags, dialogs other than the delete dialog, and all markup.
- The login page, the order-confirmation page, the home page, the layout and navigation bar, and the presentational cards.
- `getCategories` is modelled over the already-fetched documents, so the fetch itself is not modelled.
- The catalog re-fetch after a URL change is a separate `Load` call. The automatic re-run of the effect and the interleaving of async responses are not modelled.
- `CartStore.Cart.AddToCart`: the merge branch of `addToCart` writes the new quantity into the existing line object, so the old array is mutated (src/context/CartContext.tsx:44). Under React StrictMode's double updater call this can add twice. The model replaces the line by value.
- `Date.now()` line ids and order ids are parameters. `AddPreserves` assumes a fresh id to keep ids unique.
- `URL.createObjectURL` is the function `previewOf`, which gives one URL per file.
- The register page's `handleChange` and the checkout `handleChange` are not modelled: they only copy one input into the form.
- `Catalog.CatalogView.Load`: the fetch failure branch, which keeps the old products, is not modelled.

## Findings

| source | as written | input that shows it | evidently intended | confidence | as-written member | corrected member |
|---|---|---|---|---|---|---|
| src/components/admin/ProductForm.tsx:92-93 | the position in `images` is `index - (product?.images.length \|\| 0)`, the number of images the product had when the form opened | edit a product with images o1, o2; add file f; remove index 0 (o1); remove index 1 (f's preview): `f` is still queued for upload | the offset is the number of product images still shown, `imageUrls.length - images.length`, so the file behind a removed preview is removed too | not executed | ProductForm.RemoveAsWrittenKeepsRemovedFile | ProductForm.RemoveImageAtKeepsAligned |
