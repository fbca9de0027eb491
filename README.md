# Storefront core in Dafny

This project models the client-side core of a small storefront written in React
and TypeScript. It covers:

- the catalog filter pipeline: category, text search, brands, price band and minimum rating;
- the cart ledger: add, adjust with a floor of one, remove, unit count and subtotal;
- the wishlist: toggle and remove;
- review submission: append, recount, re-average rounded to one decimal, and the detail snapshot kept in step;
- resolving AI recommendations against the catalog;
- catalog upload after parsing;
- the derived values and handlers of the filter sidebar, product card, cart drawer, wishlist drawer and product detail modal.

Units are exact integers:

- Money is in cents. The default upper price bound of 2000 dollars is `200000`.
- A product's `rating` is in tenths of a star, so 4.8 is `48`.
- The minimum-rating filter (1 .. 4) is in whole stars and compares `rating >= 10 * minRating`.
- A review's `rating` is a whole star count.

State that the application changes in place has class form:

- `App.Store` has one field per `useState` hook of `App.tsx` that the core uses. Each handler is a method whose postcondition gives the whole new state as `State() == old(State()).(…)`.
- Each method also keeps the invariant `Valid()`: at most one cart line per product, every quantity at least 1, and at most one wishlist entry per product.
- The review form's three fields are the class `ProductDetailModal.ReviewForm`.

The pure logic consists of functions specified by lemmas:

- `Catalog`, `Cart`, `Wishlist`, `Reviews` and `Recommend` hold the updaters that `App.tsx` passes to its setters.
- One module per component holds that component's derived values.
- `Seed` holds the bundled categories and products of `constants.tsx`.
- `Scenarios` fixes a few concrete runs.

On these points the model follows the code:

- **Review validation.** Submission is refused only when the name or the comment is the empty string. Whitespace-only text is accepted, and nothing is reported to the caller beyond the form staying as it was. The rating is not range-checked by the handler; only the star picker keeps it in 1 .. 5.
- **Review count.** `reviewCount` is set to the length of the review list, not incremented. The bundled products carry counts that do not match their lists: the first phone says 154 and lists 2 reviews. Its first new review therefore sets the count to 3, not 155. `Reviews.CountGrowsByOne` states exactly when the count grows by one, and `Scenarios.FirstReviewOnSeedPhone` shows the bundled case.

## Model

| member | source | states |
|---|---|---|
| Text.Lower | App.tsx:73-74 | lower-casing keeps the length, maps each character and leaves no upper-case letter |
| Text.LowerIdempotent | App.tsx:73-74 | lower-casing twice is lower-casing once |
| Catalog.FilteredProducts | App.tsx:66-85 | running the stages one after another, each only when active, yields the single-pass reference filter |
| Catalog.NextStage | App.tsx:67-84 | filtering the output of the first k stages by stage k+1's test (or not at all when it is off) equals filtering by the first k+1 stages at once |
| Catalog.FilterProducts | App.tsx:66-85 | the reference filter returns no more products than the catalog holds, each a catalog product matching every active criterion |
| Catalog.CategoryStage | App.tsx:68-70 | the category stage filters by equality with the active category, unless it is "all" |
| Catalog.QueryStage | App.tsx:71-76 | a non-empty query keeps products whose lower-cased name or description contains the lower-cased query |
| Catalog.BrandStage | App.tsx:77-79 | a non-empty brand selection keeps products whose brand is selected |
| Catalog.PriceStage | App.tsx:80 | the price band always applies, inclusive at both ends |
| Catalog.RatingStage | App.tsx:81-83 | a positive minimum keeps products rated at least that many stars |
| Catalog.FilterKeepsExactly | App.tsx:66-85 | a catalog product is in the result if and only if it passes all five stages |
| Catalog.FilteredAreMatches | App.tsx:66-85 | every product shown comes from the catalog and matches the criteria |
| Catalog.FilterIsSubsequence | App.tsx:66-85 | the result is the catalog with products deleted, in catalog order |
| Catalog.ClearedKeepsPriceBand | App.tsx:159-165 | after clearing, only the 0 .. 2000 dollar band still filters |
| Catalog.UnfilteredIsIdentity | App.tsx:66-85 | with every stage off and all prices in band the catalog is shown unchanged |
| Catalog.InvertedRangeIsEmpty | App.tsx:80 | a minimum above the maximum shows nothing |
| Catalog.QueryCaseInsensitive | App.tsx:71-76 | the text stage gives the same answer for a query and its lower-cased form |
| Cart.MapQuantity | App.tsx:106 | the map changes the quantities of the lines with the id and leaves every other line as it was |
| Cart.Add | App.tsx:102-109 | after adding, the product has a line; the cart keeps its length for a known product and grows by one line for a new one; other products' lines are untouched |
| Cart.Adjust | App.tsx:499 | adjusting keeps every line's product and position, leaves the product's lines at quantity 1 or more and other lines untouched |
| Cart.Remove | App.tsx:500 | after removal no line carries the id, and the lines kept come from the old cart |
| Cart.CountCoversLines | App.tsx:207 | on a valid cart the navbar's unit count is at least the number of lines |
| Cart.AddSpec | App.tsx:102-109 | adding keeps the cart valid, puts the product in it, raises its quantity and the unit count by one and leaves other products' quantities alone; the number of lines grows only for a new product |
| Cart.AddExisting | App.tsx:104-106 | a product already in the cart has its line's quantity raised by one in place |
| Cart.AddNew | App.tsx:107-108 | a new product is appended with quantity 1 |
| Cart.AddTwice | App.tsx:102-109 | adding a new product twice appends one line of quantity 2 |
| Cart.AdjustSpec | App.tsx:499 | adjusting keeps the cart valid and its length, sets the product's quantity to max(1, q + delta), leaves other products alone and does nothing for an absent id |
| Cart.AdjustNeverBelowOne | App.tsx:499 | after an adjustment, any line below 1 is a line that was already below 1 and was not adjusted |
| Cart.RemoveSpec | App.tsx:500 | removing keeps the cart valid, drops the product, keeps every other line in order and leaves other products' quantities unchanged |
| Cart.RemoveQuantity | App.tsx:500 | removing one product leaves every other product's quantity unchanged |
| Wishlist.Toggle | App.tsx:113-121 | after a toggle the product is listed exactly when it was not listed before |
| Wishlist.Remove | App.tsx:507 | after removal no entry carries the id, and the entries kept come from the old list |
| Wishlist.ToggleSpec | App.tsx:113-121 | toggling keeps ids unique and flips whether the product is listed; a listed product is removed exactly as the drawer's removal does, keeping the other entries in order, and an unlisted one is appended after the unchanged list; exactly its id is added or removed |
| Wishlist.ToggleTwiceAbsent | App.tsx:113-121 | toggling an unlisted product twice restores the list |
| Wishlist.ToggleTwicePresent | App.tsx:113-121 | toggling a listed product twice moves its fresh snapshot to the end, with the same ids |
| Wishlist.RemoveSpec | App.tsx:507 | removal drops the id, keeps the other entries in order and keeps ids unique |
| Wishlist.RemoveIds | App.tsx:507 | removal takes exactly that id out of the listed ids |
| Reviews.MakeReview | App.tsx:124-128 | the stored review carries the submitted fields plus the given id and date |
| Reviews.RoundTenths | App.tsx:133-138 | the result is the mean in tenths rounded to nearest, halves away from zero |
| Reviews.MeanTenths | App.tsx:133-138 | the stored rating is the integer number of tenths nearest to ten times the mean of the ratings |
| Reviews.ApplyReview | App.tsx:130-139 | the review is appended, the count equals the new list length and the rating is the rounded mean of the new list; nothing else changes |
| Reviews.ApplyReviewSpec | App.tsx:132-138 | the new rating is the rounded mean of the old ratings and the new one; id, name and prices are kept |
| Reviews.SubmitToCatalog | App.tsx:130-142 | every product with the id gets the update and every other product is kept |
| Reviews.SubmitUnknownId | App.tsx:130-142 | an id not in the catalog changes nothing |
| Reviews.RefreshSelected | App.tsx:144-155 | the open snapshot keeps its presence and id; it receives the review, with the count set to the new list length, only when it is the reviewed product, and is otherwise unchanged |
| Reviews.MeanInStarRange | App.tsx:133-138 | ratings of 1 .. 5 stars average to 1.0 .. 5.0 |
| Reviews.SnapshotStaysConsistent | App.tsx:144-155 | an open snapshot equal to a catalog entry stays equal to it after the review |
| Reviews.CountGrowsByOne | App.tsx:137 | the count grows by exactly one if and only if it already equalled the list length |
| Recommend.Find | App.tsx:168 | the lookup fails exactly when no product has the id, and otherwise returns a catalog product with it |
| Recommend.FindFirst | App.tsx:168 | the lookup returns the first product with the id |
| Recommend.Resolve | App.tsx:167-169 | there are no more resolved products than recommendations, and each is a catalog product |
| Recommend.ResolveIds | App.tsx:167-169 | the resolved products' ids are the recommended ids the catalog knows, in recommendation order |
| Recommend.ResolveFromCatalog | App.tsx:167-169 | each resolved product is the catalog's first match for some recommendation |
| Recommend.ResolveAllKnown | App.tsx:167-169 | when every id is known, nothing is dropped and order follows the recommendations |
| App.Store.constructor | App.tsx:18-33 | the initial state: the given catalog, empty cart and wishlist, no selection, category "all", price band 0 .. 2000 dollars, no rating filter |
| App.Store.FilteredProducts | App.tsx:66-85 | the memoised list is the reference filter over the current catalog and filter state |
| App.Store.CartCount | App.tsx:207 | the navbar badge reads 0 for an empty cart and at least the number of lines on a valid cart |
| App.Store.RecommendedProducts | App.tsx:167-169 | the recommended list is no longer than the service's answer and shows only catalog products |
| App.Store.IsWishlisted | App.tsx:254 | a card's heart is filled exactly when its id is on the wishlist |
| App.Store.AddToCart | App.tsx:102-111 | the cart takes the add updater and the cart panel opens; nothing else changes |
| App.Store.UpdateQuantity | App.tsx:499 | only the cart changes, by the floored adjustment |
| App.Store.RemoveFromCart | App.tsx:500 | only the cart changes, by removal of the id |
| App.Store.ToggleWishlist | App.tsx:113-121 | only the wishlist changes, by the toggle |
| App.Store.RemoveFromWishlist | App.tsx:507 | only the wishlist changes, by removal of the id |
| App.Store.SubmitReview | App.tsx:123-157 | the catalog and the open snapshot of the same product both receive the review; nothing else changes |
| App.Store.ClearAllFilters | App.tsx:159-165 | brands, price band, rating, query and category return to their defaults; cart, wishlist and catalog are untouched |
| App.Store.SetSearchQuery | App.tsx:209 | only the query changes |
| App.Store.SetActiveCategory | App.tsx:229 | only the category changes |
| App.Store.SetSelectedBrands | App.tsx:341 | only the brand selection changes |
| App.Store.SetPriceRange | App.tsx:343 | only the price band changes |
| App.Store.SetMinRating | App.tsx:345 | only the rating filter changes |
| App.Store.ViewDetails | App.tsx:253 | only the open product changes |
| App.Store.CloseDetails | App.tsx:514 | the detail view closes; nothing else changes |
| App.Store.OpenCart | App.tsx:210 | the navbar opens the cart panel; nothing else changes |
| App.Store.CloseCart | App.tsx:497 | the drawer closes the cart panel; nothing else changes |
| App.Store.ApplyRecommendations | App.tsx:87-100 | a query of at most two characters clears the recommendations; a longer one stores the service's list, or nothing when it returned none |
| App.Store.UploadCatalog | App.tsx:181-202 | only a JSON array replaces the catalog; other JSON and unparsable files leave the state unchanged, and each case has its own alert |
| FilterSidebar.BrandsOf | components/FilterSidebar.tsx:30 | one brand per product, in catalog order |
| FilterSidebar.Distinct | components/FilterSidebar.tsx:30 | the de-duplicated list is no longer than its input and holds only its values |
| FilterSidebar.DistinctSpec | components/FilterSidebar.tsx:30 | the de-duplicated list holds exactly the input's values, each once, ordered by first appearance |
| FilterSidebar.BrandsSpec | components/FilterSidebar.tsx:30 | the brand list names every product's brand and nothing else, once each, in order of the first product carrying it |
| FilterSidebar.Brands | components/FilterSidebar.tsx:30 | the brand list has at most one entry per product, and each entry is some product's brand |
| FilterSidebar.ToggleBrand | components/FilterSidebar.tsx:32-36 | a checkbox leaves its brand selected exactly when it was not, and adds no other brand |
| FilterSidebar.ToggleBrandSpec | components/FilterSidebar.tsx:32-36 | a checkbox flips exactly its brand's membership, appending a new brand at the end |
| FilterSidebar.ToggleBrandTwice | components/FilterSidebar.tsx:32-36 | checking and unchecking an unselected brand restores the selection |
| FilterSidebar.RatingChoices | components/FilterSidebar.tsx:140 | the radio values lie in 1 .. 4 |
| FilterSidebar.OnBrandChange | components/FilterSidebar.tsx:89-90 | only the brand selection changes, by the toggle |
| FilterSidebar.OnMinInput | components/FilterSidebar.tsx:109-110 | only the lower price bound changes |
| FilterSidebar.OnMaxInput | components/FilterSidebar.tsx:117-118 | only the upper price bound changes |
| FilterSidebar.OnSlider | components/FilterSidebar.tsx:124-129 | the slider sets only the upper bound, to a multiple of 50 dollars up to 2000 |
| FilterSidebar.OnRatingChoice | components/FilterSidebar.tsx:140-146 | only the rating filter changes, to one of 4, 3, 2, 1 |
| ProductCard.Discount | components/ProductCard.tsx:14-16 | the tag is the percentage saved rounded to nearest with halves up, and 0 without a truthy original price |
| ProductCard.DiscountIsPercentage | components/ProductCard.tsx:14-16 | a price between 0 and the original price gives 0 .. 100 |
| ProductCard.CornerLabels | components/ProductCard.tsx:39-47 | the discount tag and the badge never show together; a price above the original shows neither |
| ProductCard.RoundedSign | components/ProductCard.tsx:14-16 | a value rounded to the nearest step is positive exactly when it is at least half a step, and zero exactly within half a step of zero |
| ProductCard.DiscountSign | components/ProductCard.tsx:14-16 | with a positive original price, the discount is positive exactly when the price is at least half a percent below it, and zero exactly within half a percent of it |
| ProductCard.ShowsDiscountTag | components/ProductCard.tsx:39-43 | the "-N%" tag shows exactly when the price is at least half a percent below a positive original price |
| ProductCard.ShowsBadge | components/ProductCard.tsx:45-49 | the badge shows exactly when it is a non-empty string and there is no original price or the price is within half a percent of it |
| ProductCard.LitStars | components/ProductCard.tsx:81-82 | the card lights at most five stars, and never more whole stars than the rating |
| ProductCard.LitStarsClamp | components/ProductCard.tsx:81-82 | the card lights min(5, floor(rating)) stars, none below 1.0 |
| Stars.LitIsClamp | components/ProductDetailModal.tsx:124-125 | a strip for value v lights v clamped into 0 .. 5 stars |
| Stars.WholeStars | components/ProductCard.tsx:82 | the floor of a rating held in tenths |
| Stars.RatingStars | components/ProductCard.tsx:81-82 | a rating in tenths lights floor(rating) stars, capped at five |
| CartDrawer.SubtotalAppend | components/CartDrawer.tsx:14 | a new line raises the subtotal by its price times its quantity |
| CartDrawer.SubtotalConcat | components/CartDrawer.tsx:14 | the subtotal is additive over concatenation |
| CartDrawer.Subtotal | components/CartDrawer.tsx:14 | non-negative prices and quantities give a non-negative subtotal |
| CartDrawer.MinusDisabled | components/CartDrawer.tsx:64-66 | on a line with quantity 1 or more, the minus button is disabled exactly when pressing it would leave the quantity unchanged |
| CartDrawer.HeaderCount | components/CartDrawer.tsx:31 | the header's line count never exceeds the navbar's unit count on a valid cart |
| CartDrawer.ShowsFooter | components/CartDrawer.tsx:92 | when the footer is hidden the subtotal, the unit count and the header are 0; on a valid cart the footer shows exactly when the unit count is positive |
| CartDrawer.ButtonsOnLine | components/CartDrawer.tsx:64-72 | an enabled minus button takes one unit off its line and plus adds one |
| ProductDetailModal.ProductStarsSpec | components/ProductDetailModal.tsx:63-64 | the header strip lights the whole stars of the rating, capped at five |
| ProductDetailModal.ReviewStarsSpec | components/ProductDetailModal.tsx:124-125 | a review of 1 .. 5 stars lights that many |
| ProductDetailModal.ProductStars | components/ProductDetailModal.tsx:63-64 | the header lights at most five stars, all five exactly at a rating of 5.0 or more |
| ProductDetailModal.ReviewStars | components/ProductDetailModal.tsx:124-125 | a review lights at most five stars, and none exactly when its rating is 0 or less |
| ProductDetailModal.ShowsNoReviews | components/ProductDetailModal.tsx:133-135 | the placeholder shows exactly when the product has no review list or an empty one |
| ProductDetailModal.Accepts | components/ProductDetailModal.tsx:17 | the form is accepted exactly when both the name and the comment have at least one character, whatever the rating |
| ProductDetailModal.ReviewBadge | components/ProductDetailModal.tsx:104 | the badge reads 0 exactly when the review list is absent or empty |
| ProductDetailModal.NoReviewsIffZeroBadge | components/ProductDetailModal.tsx:104-110 | the "no reviews" placeholder shows exactly when the badge reads 0 |
| ProductDetailModal.BadgeAgreesAfterReview | components/ProductDetailModal.tsx:104 | after a review the badge equals the review count and has grown by one |
| ProductDetailModal.AddToCartAndClose | components/ProductDetailModal.tsx:87-91 | the product is added, the cart opens and the modal closes |
| ProductDetailModal.ReviewForm.constructor | components/ProductDetailModal.tsx:13 | the form starts empty with five stars |
| ProductDetailModal.ReviewForm.SetName | components/ProductDetailModal.tsx:152 | only the name changes |
| ProductDetailModal.ReviewForm.PickStar | components/ProductDetailModal.tsx:158-162 | only the rating changes, to the star pressed |
| ProductDetailModal.ReviewForm.SetComment | components/ProductDetailModal.tsx:178 | only the comment changes |
| ProductDetailModal.ReviewForm.Submit | components/ProductDetailModal.tsx:15-20 | submission happens exactly when name and comment are non-empty: the store then receives the review for the shown product and the form resets; otherwise nothing changes |
| ProductDetailModal.FormReviewKeepsRatingInRange | components/ProductDetailModal.tsx:158-162 | a review from the form keeps a product whose reviews are 1 .. 5 stars rated 1.0 .. 5.0 |
| WishlistDrawer.UniqueIdsCount | components/WishlistDrawer.tsx:29 | a list with one entry per product is as long as its set of ids |
| WishlistDrawer.HeaderCount | components/WishlistDrawer.tsx:29 | the header counts the distinct products on the list |
| WishlistDrawer.ShowsEmptyState | components/WishlistDrawer.tsx:38 | the empty state shows exactly when no product is listed |
| WishlistDrawer.MoveToCart | components/WishlistDrawer.tsx:61-64 | the product moves from the wishlist to the cart: one more unit of it in the cart, its id gone from the wishlist |
| Scenarios.CartWalkthrough | App.tsx:102-109 | on the bundled phone: add, add, minus gives one unit, and minus at one stays at one |
| Scenarios.SeedDiscounts | constants.tsx:15-130 | the bundled phone, laptop, sneakers, television and shea butter tag 21, 15, 44, 20 and 33 percent; the products without an original price tag 0 |
| Scenarios.SeedPriceBand | App.tsx:66-85 | over the bundled catalog, the 500 .. 2000 dollar band with every other stage off keeps the two phones and the laptop, in catalog order |
| Scenarios.SeedCatalogShape | constants.tsx:4-130 | the bundled catalog has eight products, each filed under the slug of a bundled category |
| Scenarios.SeedIdsDistinct | constants.tsx:15-130 | the bundled products have distinct ids |
| Scenarios.FirstReviewOnSeedPhone | App.tsx:130-139 | a three-star review on the bundled phone sets its count to 3 and its rating to 4.0 |
| Scenarios.StoreWalkthrough | App.tsx:102-111 | two adds of one product to a fresh store give one line and a badge of 2, and a non-array upload reports the invalid format |

## Left out

- Persistence in `localStorage` is not modelled: the load on mount, the sync on change and its JSON parse errors (App.tsx lines 36-64).
- The recommendation fetch is not modelled: the one-second debounce, the asynchronous call, the loading flag and the Gemini service (`services/geminiService.ts`). `App.Store.ApplyRecommendations` takes the settled response as a parameter.
- Catalog download, file reading, `JSON.parse` itself and the alerts are left out. `App.Store.UploadCatalog` takes the parse outcome and returns which alert is shown. The model assumes every element of an uploaded array is a well-formed product. The source stores whatever array `JSON.parse` returns, without checking its elements.
- Review ids (`Date.now()`) and dates (the current day) are parameters of `App.Store.SubmitReview`.
- Floating point is not modelled. Prices are exact cents and ratings exact tenths. `toFixed(1)` and `Math.round` are exact rational rounding, so values where double arithmetic lands on the other side of a half may differ.
- `toLowerCase` is modelled on ASCII letters only. Unicode case mapping is not modelled.
- App.Store.ApplyRecommendations: the query length is counted in characters, while `searchQuery.length` counts UTF-16 code units. A query of two characters outside the Basic Multilingual Plane, such as two emoji, has length 4 in the source and triggers the fetch; in the model it has length 2 and clears the recommendations.
- `Number(e.target.value)` in the price inputs is not modelled: an empty or non-numeric field (0 or NaN) is outside the model. The handlers take an integer number of cents.
- Panel visibility flags other than the cart panel are outside the model: wishlist open, mobile filters open, and the current page. They are layout state only. The cart panel is opened by `App.Store.AddToCart` and `App.Store.OpenCart`, and closed by `App.Store.CloseCart`.
- The components Hero, Navbar, Footer and Features are not part of this model, beyond the navbar badge (`App.Store.CartCount`), the search box (`App.Store.SetSearchQuery`) and the home action (`App.Store.ClearAllFilters`).
- The cart stores a product snapshot plus a quantity, not the product's fields spread into the line. A later catalog edit does not reach an existing line in either form.
- ProductCard.Discount: its contract covers positive original prices. A negative original price is computed as the source would, but no property is stated for it.
- ProductCard.ShowsDiscountTag: for the same reason its contract says nothing about a negative original price.
- ProductCard.ShowsBadge: for the same reason its contract says nothing about a negative original price.
- A worked example with a text query over the bundled products is too costly for the prover. The general filter lemmas cover text queries, and `Scenarios.SeedPriceBand` gives a worked example without one.
