# Storefront core, modelled in Dafny

This project models the client-side logic of a small web storefront:

- the wishlist context, which keeps a list of saved products and mirrors it into browser storage;
- the cart page, with its quantity and remove handlers and the subtotal and item-count folds;
- the cart line controls;
- the order summary, with tax, shipping, total and the promo-code box;
- the fixed order summary on the checkout page;
- the sale page, with its count and row queries, page arithmetic, filter merge, handlers and pagination bar;
- the product detail page's quantity stepper and colour choice;
- the product filter panel;
- the product sort;
- the role guard in front of protected routes.

Each source file is one module:

- `Wishlist`, `Cart`, `CartItem`, `CartSummary`, `Checkout`, `Sale`, `ProductDetail`, `ProductFilters`, `Products` and `ProtectedRoute`.
- `Wrappers` holds the shared `Option` and `Result` types.

Where a component's handlers update its state cells, those cells are fields of a class and each handler is a method with a `modifies` clause. This covers the wishlist provider, the cart page, the promo box, the product detail page, the filter panel and the sale page. The handler's new state is tied to a pure function, and the properties are proved as lemmas about that function. The product sort is a method on arrays that returns a fresh sorted copy: the products page only stores that copy, and its state cells are not modelled.

Modelling choices:

- Money is an exact `real`, so the model has no float rounding.
- Quantities are unbounded `int`s. The cart never clamps them.
- Browser storage is a map from key to stored value. A stored value is either a wishlist snapshot or text that does not parse.
- The database queries of the sale page are sequences of query steps. `Sale.Selects` gives each step its row-selection meaning.

## Model

| member | source | states |
|---|---|---|
| Wishlist.HasId | src/contexts/WishlistContext.tsx:58-60 | the `some` test is true exactly when some entry carries the id |
| Wishlist.Added | src/contexts/WishlistContext.tsx:33-38 | an id already present leaves the list unchanged; otherwise the item is appended after the unchanged old entries; the ids afterwards are the old ids plus the item's |
| Wishlist.Removed | src/contexts/WishlistContext.tsx:49 | keeps exactly the entries whose id differs; an absent id changes nothing; never grows |
| Wishlist.RemovedMembership | src/contexts/WishlistContext.tsx:49 | after removal the id is gone, and every other id is present exactly when it was before |
| Wishlist.RemovedDistributes | src/contexts/WishlistContext.tsx:49 | filtering a concatenation is the concatenation of the filtered parts |
| Wishlist.AddedKeepsIdsDistinct | src/contexts/WishlistContext.tsx:33-38 | adding keeps ids pairwise distinct |
| Wishlist.RemovedKeepsIdsDistinct | src/contexts/WishlistContext.tsx:49 | removing keeps ids pairwise distinct |
| Wishlist.ReplayMembership | src/contexts/WishlistContext.tsx:31-56 | after any run of add and remove calls, an id is saved exactly when the last call about it was an add, or, with no call about it, when it was saved at the start |
| Wishlist.ReplayKeepsIdsDistinct | src/contexts/WishlistContext.tsx:31-56 | no run of add and remove calls ever creates a duplicate id |
| Wishlist.LoadWishlist | src/contexts/WishlistContext.tsx:22-25 | a missing key gives the empty list; a stored snapshot gives its items; load fails exactly on non-empty text that does not parse |
| Wishlist.SaveWishlist | src/contexts/WishlistContext.tsx:27-29 | loading right after saving gives back the saved list; every other key is kept |
| Wishlist.WishlistProvider.Mount | src/contexts/WishlistContext.tsx:21-29 | mounting fails with the load error, or starts from the loaded list with storage already written back |
| Wishlist.WishlistProvider.IsInWishlist | src/contexts/WishlistContext.tsx:58-60 | true exactly when some saved entry carries the product id |
| Wishlist.WishlistProvider.AddToWishlist | src/contexts/WishlistContext.tsx:31-45 | the list becomes `Added` of the old list, storage is written through, and the item's id is then in the wishlist |
| Wishlist.WishlistProvider.RemoveFromWishlist | src/contexts/WishlistContext.tsx:47-56 | the list becomes `Removed` of the old list, storage is written through, and the id is then absent |
| CartItem.LineAmount | src/components/cart/CartItem.tsx:63 | price times quantity: 0 for quantity 0, the price for quantity 1, non-negative for non-negative inputs |
| CartItem.HandleIncrease | src/components/cart/CartItem.tsx:22-24 | asks to update this line's id to exactly one more |
| CartItem.HandleDecrease | src/components/cart/CartItem.tsx:26-30 | sends a request exactly when the quantity exceeds 1; the request is for this id and exactly one fewer, which is still at least 1 |
| CartItem.DecreaseDisabled | src/components/cart/CartItem.tsx:73 | the minus button is disabled exactly when its handler would send nothing |
| CartItem.HandleRemove | src/components/cart/CartItem.tsx:32-34 | asks to remove this line's id |
| CartItem.Press | src/components/cart/CartItem.tsx:68-95 | plus asks for one more, minus asks for one fewer above 1 and sends nothing otherwise, trash asks to remove the line; every request is about the pressed line, and an update never asks for less than 1 |
| CartItem.DecreaseUndoesIncrease | src/components/cart/CartItem.tsx:22-30 | minus after plus asks for the original quantity again |
| Cart.Subtotal | src/pages/Cart.tsx:35 | 0 for an empty cart and price times quantity for a single line; with `Cart.SubtotalAppend` this makes it the sum of the line amounts |
| Cart.ItemCount | src/pages/Cart.tsx:36 | 0 for an empty cart and the line's quantity for a single line; with `Cart.ItemCountAppend` this makes it the sum of the quantities |
| Cart.Updated | src/pages/Cart.tsx:43-47 | same length; lines with the id get the new quantity; all other lines are unchanged |
| Cart.Removed | src/pages/Cart.tsx:57 | a line survives exactly when it was there and has another id; an absent id changes nothing; never grows |
| Cart.SubtotalAppend | src/pages/Cart.tsx:35 | the subtotal fold is additive over concatenation |
| Cart.ItemCountAppend | src/pages/Cart.tsx:36 | the item-count fold is additive over concatenation |
| Cart.ItemCountCoversLines | src/pages/Cart.tsx:36 | with positive quantities, the count is at least the number of lines and is 0 exactly for an empty cart |
| Cart.CheckoutDisabledExactlyWhenEmpty | src/components/cart/CartSummary.tsx:95 | fed this cart's count, the checkout button is disabled exactly while loading or when the cart has no lines |
| Cart.RemovedDistributes | src/pages/Cart.tsx:57 | filtering a concatenation is the concatenation of the filtered parts |
| Cart.ItemCountAfterUpdate | src/pages/Cart.tsx:36-47 | with distinct ids, an update moves the item count by new minus old quantity |
| Cart.SubtotalAfterUpdate | src/pages/Cart.tsx:35-47 | with distinct ids, an update moves the subtotal by price times the quantity change |
| Cart.ItemCountAfterRemove | src/pages/Cart.tsx:36-57 | with distinct ids, removal lowers the item count by exactly the removed line's quantity |
| Cart.ControlsKeepQuantitiesPositive | src/components/cart/CartItem.tsx:22-34 | whatever button is pressed on a cart with positive quantities, the resulting cart still has positive quantities |
| Cart.PlusThenMinusRestores | src/components/cart/CartItem.tsx:22-30 | plus then minus on a line gives back the original cart |
| Cart.InitialCartTotals | src/pages/Cart.tsx:11-36 | the seeded cart has subtotal 139.98 and item count 2, distinct ids and positive quantities |
| Cart.CartPage.constructor | src/pages/Cart.tsx:32 | the page starts from the seeded items |
| Cart.CartPage.HandleUpdateQuantity | src/pages/Cart.tsx:38-50 | the items become `Updated` of the old items; distinct ids are kept, and so are positive quantities for a positive new quantity |
| Cart.CartPage.HandleRemoveItem | src/pages/Cart.tsx:52-60 | the items become `Removed` of the old items, and no line with the id remains |
| CartSummary.Tax | src/components/cart/CartSummary.tsx:21 | tax is exactly 8% of the subtotal, and lies between 0 and the subtotal for a non-negative subtotal |
| CartSummary.Shipping | src/components/cart/CartSummary.tsx:22 | shipping is 0 exactly when the subtotal exceeds 100, and otherwise 10 |
| CartSummary.Total | src/components/cart/CartSummary.tsx:23 | total is 1.08 times the subtotal plus shipping; for a non-negative subtotal it exceeds the subtotal by at most tax plus 10 |
| CartSummary.ShippingLabel | src/components/cart/CartSummary.tsx:61 | shows "Free" exactly for zero shipping, and the amount otherwise |
| CartSummary.FreeLabelExactlyAboveThreshold | src/components/cart/CartSummary.tsx:22-61 | "Free" is shown exactly when the subtotal exceeds 100 |
| CartSummary.CheckoutDisabled | src/components/cart/CartSummary.tsx:95 | the checkout button is enabled exactly when not loading and the count is non-zero (related to the cart by `Cart.CheckoutDisabledExactlyWhenEmpty`) |
| CartSummary.ApplyPromoDisabled | src/components/cart/CartSummary.tsx:77 | the apply button is enabled exactly when a code is typed and no check is running |
| CartSummary.PromoBox.constructor | src/components/cart/CartSummary.tsx:15-16 | the box starts with an empty code and idle |
| CartSummary.PromoBox.SetPromoCode | src/components/cart/CartSummary.tsx:71 | typing replaces the code only |
| CartSummary.PromoBox.HandleApplyPromo | src/components/cart/CartSummary.tsx:25-29 | a check starts exactly for a non-empty code, and always when the button is enabled; an empty code changes nothing |
| CartSummary.PromoBox.FinishPromoCheck | src/components/cart/CartSummary.tsx:31-38 | every code is rejected and the box is idle again |
| Checkout.Summarize | src/pages/Checkout.tsx:38-41 | the page's own subtotal, tax, shipping and total agree with the cart fold and the order-summary rules |
| Checkout.FixedOrderSummary | src/pages/Checkout.tsx:13-41 | the fixed order shows subtotal 139.98, tax 11.1984, free shipping and total 151.1784 |
| ProductDetail.Increased | src/pages/ProductDetail.tsx:69-73 | plus adds one below stock and does nothing at stock; it keeps 1..stock |
| ProductDetail.Decreased | src/pages/ProductDetail.tsx:75-79 | minus subtracts one above 1 and does nothing at 1; it keeps the quantity at least 1 |
| ProductDetail.DecreaseUndoesIncrease | src/pages/ProductDetail.tsx:69-79 | minus undoes an effective plus |
| ProductDetail.Run | src/pages/ProductDetail.tsx:69-79 | from any quantity within 1..stock, every run of presses stays within 1..stock |
| ProductDetail.RunStaysInBounds | src/pages/ProductDetail.tsx:48-79 | from quantity 1, any run of presses keeps the quantity within 1..stock |
| ProductDetail.DefaultColor | src/pages/ProductDetail.tsx:47 | the initial colour is the first listed colour, and there is none when the list is empty |
| ProductDetail.ProductDetailPage.constructor | src/pages/ProductDetail.tsx:47-48 | quantity starts at 1 and the colour at the first listed |
| ProductDetail.ProductDetailPage.IncreaseQuantity | src/pages/ProductDetail.tsx:69-73 | the quantity becomes `Increased` of the old quantity, and the bounds invariant is kept |
| ProductDetail.ProductDetailPage.DecreaseQuantity | src/pages/ProductDetail.tsx:75-79 | the quantity becomes `Decreased` of the old quantity, and the bounds invariant is kept |
| ProductDetail.ProductDetailPage.SelectColor | src/pages/ProductDetail.tsx:179 | the clicked colour becomes the selection |
| ProductDetail.OpenMockProduct | src/pages/ProductDetail.tsx:11-48 | the mock product opens with quantity 1 and colour Black, within bounds |
| ProductFilters.Without | src/components/products/ProductFilters.tsx:48 | unchecking removes the id and adds nothing; an absent id changes nothing |
| ProductFilters.WithoutKeepsOthers | src/components/products/ProductFilters.tsx:48 | every other selected id survives unchecking |
| ProductFilters.WithoutDistributes | src/components/products/ProductFilters.tsx:48 | filtering a concatenation is the concatenation of the filtered parts |
| ProductFilters.Toggled | src/components/products/ProductFilters.tsx:45-57 | checking appends the id after the old selection; unchecking gives `Without` |
| ProductFilters.Emit | src/components/products/ProductFilters.tsx:63-69 | each emitted field is the supplied value, or else the current state |
| ProductFilters.FilterPanel.constructor | src/components/products/ProductFilters.tsx:32-38 | the panel starts at price 0..1000 with nothing selected |
| ProductFilters.FilterPanel.HandlePriceChange | src/components/products/ProductFilters.tsx:40-43 | stores the new range and emits it with the current selections |
| ProductFilters.FilterPanel.HandleCategoryChange | src/components/products/ProductFilters.tsx:45-52 | toggles the category and emits the new selection |
| ProductFilters.FilterPanel.HandleBrandChange | src/components/products/ProductFilters.tsx:54-61 | toggles the brand and emits the new selection |
| ProductFilters.FilterPanel.ResetFilters | src/components/products/ProductFilters.tsx:71-80 | restores the defaults and emits them |
| Products.OrderingFor | src/pages/Products.tsx:101-117 | "price-asc", "price-desc" and "rating" each select their ordering, and exactly those |
| Products.RankSortedMeaning | src/pages/Products.tsx:102-113 | sorted by rank means price ascending, price descending, or rating (missing as 0) descending |
| Products.SortByRank | src/pages/Products.tsx:102-113 | sorts in place by rank, with the same products afterwards |
| Products.SortProducts | src/pages/Products.tsx:98-120 | a fresh copy holding the same products; unchanged for other keys; sorted by the chosen ordering otherwise |
| Sale.TotalPages | src/pages/Sale.tsx:84 | the ceiling of count over 12, with a missing count as 0 |
| Sale.PageRows | src/pages/Sale.tsx:131-132 | each page spans 12 rows, starting at row 0 or later |
| Sale.ConsecutivePagesContiguous | src/pages/Sale.tsx:131-133 | each page's first row directly follows the previous page's last row |
| Sale.RowOnExactlyOnePage | src/pages/Sale.tsx:131-133 | every row index lies on exactly one page |
| Sale.PagesCoverCount | src/pages/Sale.tsx:84-133 | a page is within the page count exactly when its first row is below the product count |
| Sale.OrderFor | src/pages/Sale.tsx:116-128 | orders by price exactly for the two price keys, ascending only for "price-asc"; otherwise newest first |
| Sale.FilterSteps | src/pages/Sale.tsx:63-77 | only filter steps (no order, no range); both price bounds always; the category step exactly for a category other than empty or "all"; the search step exactly for a non-empty term |
| Sale.AddFilters | src/pages/Sale.tsx:59-77 | adding the filters one by one to a fresh query gives `FilterSteps` |
| Sale.SelectsAppend | src/pages/Sale.tsx:59-113 | a chained query selects a row exactly when both parts do |
| Sale.FilterStepsMeaning | src/pages/Sale.tsx:59-77 | the filter steps select exactly the sale rows matching the category, price bounds and search term |
| Sale.OrderAndRangeKeepSelection | src/pages/Sale.tsx:116-133 | adding an order and a row range leaves the selected rows unchanged |
| Sale.FetchSaleProductsRequest | src/pages/Sale.tsx:55-133 | the count query selects exactly the matching rows; the row query adds the order and the page range, and selects the same rows |
| Sale.WindowSize | src/pages/Sale.tsx:257 | at most 5 and at most totalPages-2 middle slots, and exactly the smaller of the two |
| Sale.PageAt | src/pages/Sale.tsx:258-262 | the corrected window never offers a page below 2; away from both ends the window is centred, starting at currentPage-2 |
| Sale.MiddlePages | src/pages/Sale.tsx:257-264 | the candidates are consecutive pages from the window's start; a page is listed exactly when it is one of the first n candidates and lies strictly between first and last page; every listed page lies in the window, there are at most n, and they are strictly increasing, so none repeats |
| Sale.AsWrittenMiddlePagesOfFive | src/pages/Sale.tsx:257-264 | as written, on page 4 of 5 the candidates are 1, 2 and 3, and the middle pages are just 2 and 3 |
| Sale.PreviousTarget | src/pages/Sale.tsx:234 | previous leads to page-1 exactly when the page is above 1 |
| Sale.NextTarget | src/pages/Sale.tsx:300 | next leads to page+1 exactly when the page is below the last |
| Sale.Pagination | src/pages/Sale.tsx:229-305 | once products are shown, the bar appears exactly for more than one page; the ellipses appear exactly when the page is above 3 and below last-2; the middle pages lie strictly inside |
| Sale.ControlsStayInRange | src/pages/Sale.tsx:234-300 | every page the bar links to lies within 1..totalPages |
| Sale.CurrentPageUnlinkedAsWritten | src/pages/Sale.tsx:257-264 | with the window as written, page 4 of 5 is not among the bar's links |
| Sale.CurrentPageAlwaysLinked | src/pages/Sale.tsx:257-264 | with the corrected window, the current page is always linked |
| Sale.HiddenPagesBehindEllipsis | src/pages/Sale.tsx:250-284 | with the corrected window, an inner page that is not shown sits behind an ellipsis on its side |
| Sale.Merge | src/pages/Sale.tsx:152-157 | each filter takes the patch's value when supplied and keeps its old value otherwise |
| Sale.MergeIdempotent | src/pages/Sale.tsx:152-157 | merging the same patch twice is the same as once |
| Sale.PanelChangeLeavesQueries | src/pages/Sale.tsx:186-191 | a change emitted by the filter panel leaves the sale queries unchanged |
| Sale.SalePage.constructor | src/pages/Sale.tsx:15-24 | starts with the default filters, "newest", page 1 of 1 |
| Sale.SalePage.HandleFilterChange | src/pages/Sale.tsx:152-157 | the filters become the merge of the old filters and the patch |
| Sale.SalePage.HandleApplyFilters | src/pages/Sale.tsx:159-162 | resets to page 1 and issues the queries for the current filters and sort, rows 0..11 |
| Sale.SalePage.HandleSortChange | src/pages/Sale.tsx:164-167 | stores the sort key and resets to page 1 |
| Sale.SalePage.HandlePageChange | src/pages/Sale.tsx:169-172 | moves to the chosen page |
| Sale.SalePage.ReceiveCount | src/pages/Sale.tsx:79-85 | a failed count keeps the page count; a successful one sets it to `TotalPages` |
| ProtectedRoute.RoleAdmits | src/components/auth/ProtectedRoute.tsx:23 | admin passes every requirement; no requirement admits everyone; a requirement with no profile refuses |
| ProtectedRoute.Guard | src/components/auth/ProtectedRoute.tsx:9-34 | loading first, then login redirect for no user; unauthorized exactly for a signed-in user the role test refuses; otherwise the outlet when there are no children, else the children |
| ProtectedRoute.AdminPassesEveryRoute | src/components/auth/ProtectedRoute.tsx:18-25 | a signed-in admin is never redirected |

## Left out

- Network and database I/O (the hosted database client) is left out. The sale page's queries are built as values, and their results come back as parameters.
- The categories fetch on the sale page and the product fetches of the other pages are left out, because they are pure I/O.
- Timers are left out: the 300 ms delays in the cart handlers and the 1 s promo delay.
  - Each delayed update is modelled as a separate later step, so the cart handlers act on the current items.
  - The `isUpdating`, `isProcessing` and add-to-cart busy flags are not modelled. They only feed spinners and disabled buttons.
- The sale page's apply-filters handler fetches with the page number captured before its own reset to page 1. The model issues the fetch after the reset, as the comment beside it says is intended.
- Toasts, console output, `window.scrollTo` and navigation are left out. They have no state the model reads.
- `toFixed(2)` formatting and floating-point rounding are left out. Money is exact.
- The search test is a case-sensitive substring test.
  - The database's case-insensitive `ilike` pattern match is not modelled.
  - Neither are its `%` and `_` wildcards inside the search term.
  - Neither is the textual syntax of the `.or` filter string.
- A patch key that is present with value `undefined` is not modelled. A patch field is either supplied or absent.
- JSON serialisation is abstracted. A stored wishlist value is a snapshot of the items, or text that does not parse.
- Stored text that parses but is not a list (for example `null`) is not modelled. The wishlist would mount with a non-list value and fail later, at the first `some` call.
- The products page's own state cells (`products`, `isLoading`, `sortOption`, `filters`) are not modelled as a class. Only its sort is modelled, as `Products.SortProducts` returning the copy the page stores.
- The sale page's `products`, `categories` and `loading` cells are not modelled. Besides holding fetched data, `loading` and an empty `products` list also decide whether the product grid and the pagination bar render at all: the bar is rendered only after loading ends with a non-empty page of products (src/pages/Sale.tsx:197-207). `Sale.Pagination` describes the bar once it is rendered.
- The sale page's effects are not modelled. They re-issue the request on mount and after every sort or page change (src/pages/Sale.tsx:26-33). So `Sale.SalePage.HandleSortChange` and `Sale.SalePage.HandlePageChange` return no request. `Sale.FetchSaleProductsRequest` gives the request for any state, including the state those handlers leave.
- Sign-in and the profile come from the auth provider, which is not part of this model. The route guard takes them as parameters.
- The cart provider mounted by the app shell is not part of this model.
- Products.SortByRank: does not prove that the sort is stable. The platform sort keeps equal-ranked products in their old order, and the model's contract leaves their relative order open.
- The star rendering, image gallery, tabs and related-products views are not modelled. Neither are the other view-only pages.
- The checkout form's field checks are not modelled. Neither is its payment-method choice.
- Routing is left out.

## Findings

| source | as written | input that shows it | evidently intended | confidence | as-written member | corrected member |
|---|---|---|---|---|---|---|
| src/pages/Sale.tsx:257-264 | near the end the middle window starts at `totalPages - 4`, which can be 1 or less, so the first slots are dropped by the `page > 1` test | totalPages = 5, currentPage = 4: the middle pages are 2 and 3, and page 4 gets no link | the window starts at `max(2, totalPages - 4)`, so the current page is always linked | not executed | Sale.CurrentPageUnlinkedAsWritten | Sale.CurrentPageAlwaysLinked |

The sale page hands its filter-change handler to the filter panel. The panel emits the keys `price`, `categories` and `brands`, but the sale page's filters are `category`, `minPrice`, `maxPrice` and `search`. A panel change therefore never alters the sale queries (`Sale.PanelChangeLeavesQueries`). The sale page also passes `onApplyFilters`, but the panel's props declare only `onFilterChange` (src/components/products/ProductFilters.tsx:10-12). So the apply-filters handler is never called from the page, and `Sale.SalePage.HandleApplyFilters` models it only as an operation. The intended key mapping is not evident from the code, so this is recorded as a property, not as a finding.
