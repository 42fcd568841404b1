# Trios Art storefront — a Dafny model

This project models the logic of the Trios Art storefront, a React shop for
hand-painted bags. It covers:

- the built-in catalog and its queries;
- the shop listing's filter-and-sort pipeline and filter settings;
- the mock authentication state;
- the admin product-upload flow;
- the cart page's quantity buttons and order summary;
- the product page's quantity selector, image picker and star row;
- the header's cart badge and its menu, search and scroll flags.

Units: money is held in integer cents and ratings in integer tenths of a
star, so that the 75.00 free-shipping threshold, the 7.99 fee and a rating
of 4.8 are exact. The listing's price slider yields whole dollars, so a
range bound `b` is compared with a price as `b * 100` cents.

Modules follow the source files:

| module | source |
|---|---|
| `Types` | `src/types/index.ts` |
| `Catalog` | `src/data/products.ts` |
| `Listing` | the pure filter/sort pipeline of `src/pages/ProductListingPage.tsx` |
| `ListingPage` | the page state of `src/pages/ProductListingPage.tsx` |
| `Auth` | `src/context/AuthContext.tsx` |
| `Admin` | `src/pages/Admin.tsx` |
| `CartPage` | `src/pages/CartPage.tsx` |
| `ProductDetail` | `src/pages/ProductDetailPage.tsx` |
| `Navbar` | `src/components/layout/Navbar.tsx` |

`Sequences` holds the list operations shared by these modules: `filter`,
`find` and a subsequence relation. `Wrappers` holds `Option`.

The pure parts are functions and lemmas. These are the catalog queries, the
price and stock filters, the comparators, the cart arithmetic, the badge
count and the star row. The parts that change state step by step are
methods, as in the source:

- The sort is an in-place insertion sort on an array, written for any
  comparator that is a total preorder, and proved sorted and a permutation.
  It stands in for `result.sort(comparator)`. Each of the page's four
  comparators is proved to be such an order.
- The upload loop is a `for` loop that collects URLs.
- The listing page, the auth provider, the admin page, the product page and
  the header are classes. Their fields are the source's `useState` values
  and the listing's route id; their methods are the source's handlers and
  effects.

Remote calls become parameters carrying their outcomes:

- each storage upload, as `Stored(url)` or `UploadError(message)`;
- the table insert, as `Inserted`, `InsertError(message)` or `InsertThrew(...)`;
- the timestamp-and-random part of each storage key, as a token per image.

A class method shows the state once the effects its change triggers have run.

Behaviour of the code that the model keeps as written:

- **Price filter lower bound.** The filter compares prices with
  `priceRange[0]` and `priceRange[1]`. The slider only ever replaces
  `priceRange[1]`, so the lower bound stays 0; `ListingPage.Valid` records
  this.
- **Fallback comparator.** Every sort key other than "price-low",
  "price-high" and "rating" uses the featured-first comparator, not only
  "featured".
- **Rejected quantities.** On the product page, a typed quantity that does
  not parse to a number above 0 is ignored, and the old quantity stays.
- **Catalog source.** The catalog is the built-in list of six products.
- **Stale product.** When the product page's route id changes to one that is
  not in the catalog, the product already shown is not cleared. See
  `ProductDetail.ProductDetailPage.Load` and
  `ProductDetail.StaleProductScenario`.

## Model

| member | source | states |
|---|---|---|
| Sequences.Filter | src/data/products.ts:104 | `filter` never lengthens a list |
| Sequences.FilterMembers | src/data/products.ts:104 | an element is in a filtered list exactly when it is in the list and passes the test |
| Sequences.FilterIsSubsequence | src/data/products.ts:104 | a filtered list is a subsequence of its input, so order is preserved |
| Sequences.FilterCount | src/pages/ProductListingPage.tsx:36-43 | filtering keeps every copy of a passing element and no copy of a failing one |
| Sequences.Find | src/data/products.ts:98-100 | `find` returns nothing exactly when no element passes, and otherwise the first element that passes |
| Catalog.FindById | src/data/products.ts:98-100 | lookup by id over any product list: nothing iff no id matches, else a product of the list with that id |
| Catalog.GetProductById | src/data/products.ts:98-100 | `getProductById`: nothing iff no catalog id matches, else a catalog product with that id |
| Catalog.GetProductsByCategory | src/data/products.ts:102-105 | `'all'` returns the catalog unchanged; no category yields more products than the catalog has |
| Catalog.CategoryQuery | src/data/products.ts:102-105 | a category query is a subsequence of the catalog (catalog order), and for any category but `'all'` it holds exactly the products of that category |
| Catalog.GetFeaturedProducts | src/data/products.ts:107-109 | exactly the featured products, as a subsequence of the catalog, no longer than it |
| Sequences.SubsequenceOfItself | src/data/products.ts:103 | every list is a subsequence of itself, as the unchanged catalog returned for "all" is |
| Catalog.ProductIdsDistinct | src/data/products.ts:4-87 | the shipped ids are pairwise distinct |
| Catalog.LookupEachId | src/data/products.ts:4-100 | looking up each shipped product's id returns exactly that product |
| Catalog.LookupUnknownId | src/data/products.ts:98-100 | any id other than "1" to "6" finds nothing |
| Catalog.ProductsHaveImages | src/data/products.ts:9-81 | every shipped product has at least one image |
| Catalog.ShippedTotes | src/data/products.ts:13-83 | the "totes" category is products 1, 4 and 6, in that order |
| Catalog.ShippedFeatured | src/data/products.ts:14-84 | the featured products are 1, 2 and 4, in that order |
| Catalog.UnknownCategoryEmpty | src/data/products.ts:104 | a category no product has yields the empty list |
| Catalog.CategoriesShape | src/data/products.ts:90-96 | the category list starts with "all" and its ids are distinct |
| Listing.Filtered | src/pages/ProductListingPage.tsx:33-43 | keeps exactly the products with both price bounds inclusive and, when `showInStock`, in stock |
| Listing.FilteredCount | src/pages/ProductListingPage.tsx:33-43 | the filters keep every copy of a passing product and drop every copy of the rest |
| Listing.PrecedesTotalPreorder | src/pages/ProductListingPage.tsx:46-63 | each of the four comparators is total and transitive, as `sort` needs |
| Listing.SortInPlace | src/pages/ProductListingPage.tsx:46-63 | `sort` with a comparator that orders any two elements transitively leaves the array sorted under it and a permutation of its old contents |
| Listing.FilterAndSort | src/pages/ProductListingPage.tsx:32-66 | the displayed list is a permutation of the filtered products, sorted under the chosen key |
| Listing.PipelineCounts | src/pages/ProductListingPage.tsx:33-63 | the pipeline adds and duplicates nothing: each passing product appears exactly as often as in the input, and only those appear |
| Listing.SortedMeaning | src/pages/ProductListingPage.tsx:46-63 | "price-low" is non-decreasing price, "price-high" non-increasing price, "rating" non-increasing rating; any other key puts every featured product first and orders each group by non-increasing rating |
| Listing.PriceLowThreeProducts | src/pages/ProductListingPage.tsx:47-49 | 49.99, 59.99 and 39.99 sorted "price-low" come out as 39.99, 49.99, 59.99 |
| ListingPage.CurrentCategory | src/pages/ProductListingPage.tsx:68 | the heading's category has the route's id when one matches, else it is the first entry ("all") |
| ListingPage.ProductListingPage.constructor | src/pages/ProductListingPage.tsx:9-29 | the page starts with the route's products, range [0, 100], "featured", in-stock only, and a displayed list that is the pipeline's output |
| ListingPage.ProductListingPage.Refilter | src/pages/ProductListingPage.tsx:32-66 | the displayed list becomes the pipeline's output for the current settings |
| ListingPage.ProductListingPage.SetCategory | src/pages/ProductListingPage.tsx:18-29 | a new route refetches its category's products, keeps the filter settings and re-derives the displayed list |
| ListingPage.ProductListingPage.SetPriceMax | src/pages/ProductListingPage.tsx:113 | the slider replaces only the upper bound, so the lower bound stays 0, and the list is re-derived |
| ListingPage.ProductListingPage.SetSortBy | src/pages/ProductListingPage.tsx:182 | a sort choice changes only the key and re-derives the list |
| ListingPage.ProductListingPage.SetShowInStock | src/pages/ProductListingPage.tsx:151 | the checkbox changes only the stock flag and re-derives the list |
| Auth.AuthProvider.constructor | src/context/AuthContext.tsx:25-28 | no user, not authenticated |
| Auth.AuthProvider.Login | src/context/AuthContext.tsx:30-45 | with both fields non-empty the session becomes the fixed demo user, whatever email was given; otherwise it fails with "Invalid credentials" and the state is unchanged; `isAuthenticated` holds exactly when there is a user |
| Auth.AuthProvider.Signup | src/context/AuthContext.tsx:47-62 | with all fields non-empty the user is id "1" with the given name and email; otherwise it fails with "Invalid information" and the state is unchanged |
| Auth.AuthProvider.Logout | src/context/AuthContext.tsx:64-69 | from any state: no user, not authenticated |
| Admin.ResetIsInitial | src/pages/Admin.tsx:22-31 | the reset form equals the initial one: empty text fields, "totes", not featured, in stock, rating "0", no images |
| Admin.AppendImages | src/pages/Admin.tsx:39-45 | the new files follow the existing images, both in order |
| Admin.RemoveImage | src/pages/Admin.tsx:47-52 | removes exactly the image at an in-range index; an out-of-range index leaves the list unchanged |
| Admin.RemoveAppended | src/pages/Admin.tsx:39-52 | removing the image just appended restores the list |
| Admin.FileExt | src/pages/Admin.tsx:58 | the extension is never longer than the name |
| Admin.FileExtIsLastPart | src/pages/Admin.tsx:58 | the extension is the name's tail after its last dot, or the whole name when it has no dot |
| Admin.StorageKey | src/pages/Admin.tsx:59 | the key's length is the parts' lengths plus its two separators |
| Admin.StorageKeyParts | src/pages/Admin.tsx:59 | a key starts with the product id and "/", and ends with "." and the extension |
| Admin.SucceededUrls | src/pages/Admin.tsx:65-74 | no more URLs than uploads |
| Admin.SucceededUrlsStep | src/pages/Admin.tsx:57-75 | one more upload adds its URL on success and nothing on failure |
| Admin.SucceededUrlsAppend | src/pages/Admin.tsx:57-75 | the URLs of two batches are those of each batch, in order |
| Admin.SucceededUrlsMembers | src/pages/Admin.tsx:65-74 | a URL is collected exactly when an upload stored it, so none is collected exactly when every upload failed |
| Admin.UploadImages | src/pages/Admin.tsx:54-78 | one key per image, in order, each under the product id; the result is the URLs of exactly the successful uploads, in order, no more than the images |
| Admin.AdminPage.constructor | src/pages/Admin.tsx:22-35 | the page opens with the initial form, not uploading, no message |
| Admin.AdminPage.HandleImageChange | src/pages/Admin.tsx:39-45 | only the images change, by appending the picked files |
| Admin.AdminPage.RemoveImageAt | src/pages/Admin.tsx:47-52 | only the images change, by removing the one at the index |
| Admin.AdminPage.HandleSubmit | src/pages/Admin.tsx:80-134 | an incomplete form is refused before any upload; no URL means no insert and "Failed to upload images"; otherwise one row with the collected URLs is inserted, only a clean insert resets the form, and an insert error or exception is reported; `uploading` always ends false |
| Admin.SubmitKeysUnderTemp | src/pages/Admin.tsx:59-92 | every key the submit requests starts with "temp/" and ends with a dot and a dot-free extension |
| CartPage.IncrementQuantity | src/pages/CartPage.tsx:10-12 | "+" asks for exactly one more of the same product |
| CartPage.DecrementQuantity | src/pages/CartPage.tsx:14-18 | "-" asks for one fewer only above quantity 1, so it never requests less than 1 |
| CartPage.RemoveLine | src/pages/CartPage.tsx:72 | "Remove" asks the cart engine to drop exactly the line of that product |
| CartPage.DecrementUndoesIncrement | src/pages/CartPage.tsx:10-18 | "-" after "+" requests the original quantity; at 1, "-" requests nothing |
| CartPage.Shipping | src/pages/CartPage.tsx:129 | shipping is free exactly above 75.00, else 7.99 |
| CartPage.GrandTotal | src/pages/CartPage.tsx:133 | the total is subtotal plus shipping, at least the subtotal, and equal to it exactly above 75.00 |
| CartPage.ThresholdIsStrict | src/pages/CartPage.tsx:129-133 | a subtotal of exactly 75.00 pays shipping (82.99) and costs more than one of 75.01 |
| CartPage.GrandTotalMonotoneOnEachSide | src/pages/CartPage.tsx:133 | on one side of the threshold a larger subtotal never gives a smaller total |
| CartPage.LineOf | src/pages/CartPage.tsx:109 | a line's total is unit price times quantity |
| CartPage.View | src/pages/CartPage.tsx:25-133 | the empty-cart panel is shown exactly for zero items; otherwise there is one line per item and a summary whose shipping is free exactly above 75.00 and 7.99 otherwise, with grand total subtotal + shipping, as `Shipping` and `GrandTotal` give |
| ProductDetail.ProductDetailPage.constructor | src/pages/ProductDetailPage.tsx:11-14 | no product, loading, quantity 1 |
| ProductDetail.ProductDetailPage.Load | src/pages/ProductDetailPage.tsx:18-28 | a found product is shown with its first image; a missing one keeps what was shown; loading ends once an id is present |
| ProductDetail.ProductDetailPage.HandleQuantityChange | src/pages/ProductDetailPage.tsx:36-41 | a typed value is taken only when it parses above zero; otherwise the quantity is unchanged; the quantity stays at least 1 |
| ProductDetail.ProductDetailPage.IncrementQuantity | src/pages/ProductDetailPage.tsx:43-45 | adds exactly one |
| ProductDetail.ProductDetailPage.DecrementQuantity | src/pages/ProductDetailPage.tsx:47-51 | subtracts one only above 1, so the quantity stays at least 1 |
| ProductDetail.ProductDetailPage.SelectImage | src/pages/ProductDetailPage.tsx:103-106 | a thumbnail click selects that image, one of the product's own |
| ProductDetail.ProductDetailPage.HandleAddToCart | src/pages/ProductDetailPage.tsx:30-34 | requests the shown product at the current quantity (at least 1), or nothing without a product |
| ProductDetail.ProductDetailPage.View | src/pages/ProductDetailPage.tsx:57-138 | the spinner exactly while loading, the not-found panel exactly when loaded without a product, else the product with its star count |
| ProductDetail.CountBelow | src/pages/ProductDetailPage.tsx:135-138 | counting `i < bound` over 0 .. n-1 gives at most n |
| ProductDetail.CountBelowClamps | src/pages/ProductDetailPage.tsx:135-138 | that count is the bound clamped to 0 .. n |
| ProductDetail.FilledStars | src/pages/ProductDetailPage.tsx:135-138 | at most five filled stars |
| ProductDetail.FilledStarsIsFloor | src/pages/ProductDetailPage.tsx:135-138 | for a rating from 0 to 5 the filled stars are its whole part; below 1 none, from 5 all five |
| ProductDetail.ShippedProductsShowFourStars | src/data/products.ts:16-86 | every shipped rating (4.5 to 4.9) shows four filled stars |
| Navbar.TotalQuantityAppend | src/components/layout/Navbar.tsx:109 | the unit count of two lists of lines is the sum of their counts |
| Navbar.TotalQuantityAtLeastLines | src/components/layout/Navbar.tsx:109 | with every quantity at least 1, the count is at least the number of lines |
| Navbar.Badge | src/components/layout/Navbar.tsx:107-109 | the badge is shown exactly for a non-empty cart, with the sum of the quantities (the same function serves lines 150-152) |
| Navbar.BadgeAfterNewLine | src/components/layout/Navbar.tsx:107-109 | a new line raises the badge by its quantity |
| Navbar.NavbarState.constructor | src/components/layout/Navbar.tsx:9-12 | the header starts with the menu closed, the plain style and the search closed |
| Navbar.NavbarState.HandleScroll | src/components/layout/Navbar.tsx:19-25 | the scrolled style is on exactly past 50 pixels |
| Navbar.NavbarState.OnLocationChange | src/components/layout/Navbar.tsx:34-36 | a route change closes the mobile menu |
| Navbar.NavbarState.ToggleSearch | src/components/layout/Navbar.tsx:97 | the search button negates its flag |
| Navbar.NavbarState.ToggleMenu | src/components/layout/Navbar.tsx:157 | the menu button negates its flag |

`Auth.Scenarios`, `ProductDetail.StaleProductScenario` and
`Navbar.ToggleTwiceScenario` are method bodies of assertions that drive the
classes through call sequences. They cover:

- an empty login being refused;
- signing out twice;
- a stale product after an unknown id;
- toggling twice restoring a flag.

## Left out

- **The cart engine.** `src/context/CartContext.tsx` is not part of this model.
  `addToCart`, `updateQuantity` and `removeFromCart` appear only as the
  requests the pages make (`Types.CartCall`). Merging, removal and
  `cart.total` are not modelled; the cart page takes the total as a
  parameter.
- **Supabase.** The client, storage upload, `getPublicUrl` and table insert
  are network calls. Their outcomes are parameters.
- **Storage-key suffix.** `Date.now()` and `Math.random()` are a token
  parameter.
- **Exceptions during upload.** An exception thrown by the storage client
  inside the upload loop, which `handleSubmit` would catch, is not modelled.
  Only the insert may throw.
- **Timers and promises.** The 1-second `setTimeout` and the promise
  wrapping of login and signup are left out: the transitions are
  synchronous, and a rejection is the `Rejected` outcome. The "must be used
  within an AuthProvider" check of `useAuth` is React plumbing.
- **Number parsing and formatting.** `parseFloat` of the admin price and
  rating, `parseInt` and `toFixed` are left out:
  - the inserted row keeps the typed strings;
  - the product page's typed quantity arrives already parsed (`None` for a
    failed parse);
  - the slider value arrives as an integer.
- **Listing loading flag.** The listing's `loading` flag and the filter-panel
  toggle are not modelled; they affect markup only.
- **Other UI state.** The product page's favourite flag and the header's
  search text, search submit (a console log) and listener registration are
  not modelled.
- **Form field handlers.** The admin form's per-field `onChange` handlers,
  which replace one text or flag field, are not modelled.
- **Presentational files.** `src/pages/HomePage.tsx`, `src/pages/AboutPage.tsx`,
  `src/components/ui/ProductCard.tsx`, `src/components/ui/Button.tsx`,
  `src/App.tsx` and `tailwind.config.js` are markup, styling and routing.
- **`Order`.** The `Order` interface of `src/types/index.ts` is used by no
  modelled code.
- Admin.AdminPage.HandleSubmit: runs `handleSubmit` as one step. The source
  awaits each upload and the insert, and during those waits the text, select
  and checkbox fields and the remove-image buttons stay enabled. An edit made
  while uploading would be missing from the inserted row, wiped by a clean
  insert and kept after an insert error; such edits are not modelled. The
  `console.error` of a failed upload is left out as well.
- Listing.SortInPlace: promises sortedness and a permutation but not stability.
  JavaScript's `sort` is stable, but no modelled property depends on the
  order of ties.
- **Empty route id.** `ProductDetail.ProductDetailPage.Load` models a missing
  route id as the empty string; both are falsy in the source.
