# Quivio storefront: a Dafny model

This project models the logic of the Quivio e-commerce storefront and proves
properties of it. The storefront has two parts:

- an Express back end (`backend/server.js`) that answers catalogue, search, account,
  wishlist and order requests from four MySQL tables;
- a React front end, whose components keep a shopping cart, refine search results,
  paginate the popular-products grid, format card and login input, and keep a few
  small state machines (the wishlist heart, the wishlist page, the hero carousel and
  the weekly-deal countdown).

There is one Dafny module per source file:

- `Server` (`server.dfy`): the REST handlers over an in-memory copy of the tables.
  - Read-only handlers are functions of the table contents.
  - Handlers that insert, delete or overwrite rows are methods of the class `Store`.
    Its fields `products`, `users`, `orders` and `wishlist` are sequences, plus the
    two auto-increment counters.
- One module per component: `CartPage`, `ProductDetails`, `Checkout`, `SideBar`,
  `SearchResults`, `MostPopular`, `Discount`, `LoginSignup`, `HeartButton`,
  `Wishlist`, `HeroCarousel`, `WeeklyDeal` and `WeeklyDealPage`.
  - A component's state variables are the fields of a class.
  - Its event handlers are methods of that class.
  - Its computations are functions.
- `Categories` (`categories.dfy`): the category constants of `src/data/categories.tsx`.
- Shared modules:
  - `Wrappers`: `Option`.
  - `Seqs`: filter, map, subsequence.
  - `Text`: ASCII character classes, lowercasing, trimming, substring, decimal
    digits.
  - `Addresses`: the shipping-address record and its completeness test.
  - `Cart`: the cart item kept in `localStorage`.

Modelling conventions:

- Prices are Dafny `real`, and timestamps and ids are integers.
- In a request, a string field that is absent, `null` or empty is the empty string.
  JavaScript's `!x` test on an id depends on where the id comes from:
  - an id in a JSON body is a number, missing when it is `None` or 0 (`Server.Given`);
  - an id in the URL path or query string is a string, missing only when it is absent
    or empty (`None`), so "0" counts as supplied (`Server.Supplied`);
  - the body `userId` of `/shipping-address` is also tested with `Server.Supplied`,
    because its only client, the address form, posts the `localStorage` string
    (src/components/ShippingAddress.tsx:71,79-80).
- A SQL `WHERE` clause is a filter over the table in table order, and `LIKE '%t%'` is
  plain substring containment.
- What the browser or the network supplies is a parameter of the operation:
  - the `localStorage` user id;
  - a fetched address or product list (`None` for a request that failed);
  - the HTTP status of a post;
  - every `Math.random()` draw, as a real in `[0, 1)`;
  - `JSON.parse`, as a function.

## Model

| member | source | states |
|---|---|---|
| Server.PopularProducts | backend/server.js:27-45 | exactly the products with a trending score above 75, in table order; a category other than "" or "All" also has to match, trimmed and lowercased |
| Server.CategoryProducts | backend/server.js:48-70 | 400 without a category; otherwise a non-empty in-order list of exactly the products whose trimmed category matches, or 404 when there are none |
| Server.WeeklyDeals | backend/server.js:73-88 | exactly the products with more than 15000 views, in order; 404 exactly when there are none |
| Server.CategoryCount | backend/server.js:105-116 | the count is positive iff some product's space-stripped lowercase category equals the key |
| Server.FilterQueryFor | backend/server.js:97-132 | no query (the 400) iff neither parameter is given; a category selects by its normalised key; otherwise a search selects by its normalised key when some product has that category key, else by a lowercase name substring |
| Server.Filters | backend/server.js:91-141 | 400 exactly when neither category nor search is given |
| Server.FiltersCategoryFirst | backend/server.js:97-104 | a category parameter wins: the facets are those of the products whose normalised category equals the normalised category |
| Server.FiltersSearch | backend/server.js:105-125 | a search that normalises to some product's category selects that category; otherwise it is a lowercase name substring match with the spaces kept |
| Server.FiltersNormalisation | backend/server.js:97-116 | categories that normalise alike select the same facets, and a search naming a category behaves like that category parameter |
| Server.FiltersCategoryName | backend/server.js:144-166 | nothing for a blank search; otherwise the category of a product whose lowercase name contains the trimmed search, or nothing when no name does |
| Server.SearchProducts | backend/server.js:170-190 | an in-order subsequence holding exactly the products whose space-stripped lowercase name or category contains the normalised search |
| Server.SearchEmptyMatchesAll | backend/server.js:170-190 | a search that normalises to "" returns the whole catalogue |
| Server.ProductById | backend/server.js:194-212 | the product with that id when one exists, else 404 "Product not found" |
| Server.ProductVariants | backend/server.js:237-245 | exactly the products with that name, in order |
| Server.SimilarProducts | backend/server.js:248-262 | at most 8 products of the category other than the excluded id, a prefix of the in-order matches; fewer than 8 means all of them |
| Server.LoginUser | backend/server.js:297-334 | every failure is a 400 |
| Server.LoginSucceedsIff | backend/server.js:300-332 | login succeeds iff both fields are given, a user has that email (or mobile) and the first such user's password is equal; it returns only id and name; the two failures carry distinct messages |
| Server.ShippingAddress | backend/server.js:362-383 | 400 without a user id in the path ("0" is a user id); otherwise the stored address of an existing user, or 404 "Address not found." when there is no such user |
| Server.UserProfile | backend/server.js:459-483 | the user's row, with a stored picture name prefixed by `/uploads/`; 404 for an unknown id |
| Server.UserEmail | backend/server.js:486-503 | the user's email and `sp_discount`; 404 for an unknown id |
| Server.MatchedUsers | backend/server.js:507-523 | the affected-row count is 0 iff no user has the id |
| Server.UpdateUser | backend/server.js:507-523 | an `UPDATE ... WHERE id = ?` rewrites exactly the rows with that id, in place |
| Server.LoginAfterSignup | backend/server.js:267-334 | after signing up with a fresh email, logging in with that email and password returns the new user |
| Server.ShippingAddressRoundTrip | backend/server.js:338-383 | reading the address back after saving it gives the saved address |
| Server.WishlistCheck | backend/server.js:661-677 | 400 unless both query ids are supplied ("0" is supplied); otherwise whether the pair is in the table |
| Server.WishlistIds | backend/server.js:627-658 | the ids are exactly the products the user has wishlisted |
| Server.WishlistFetch | backend/server.js:627-658 | 400 without a user id in the query ("0" is supplied, and gives `[]` when that user has no rows); otherwise, for every catalogue product, it appears flagged `isInWishlist` iff the user wishlisted it, and nothing else appears |
| Server.FlaggedProducts | backend/server.js:627-658 | the `WHERE id IN (...)` result, flagged: a product appears iff its id is listed, and every entry is a flagged catalogue product |
| Server.CheckAfterAdd | backend/server.js:574-601 | after a pair is added, the check reports it present |
| Server.CheckAfterRemove | backend/server.js:604-624 | after a pair is removed, the check reports it absent and every other pair as before |
| Server.OrderNumber | backend/server.js:388 | the random suffix is in 100000..999999 |
| Server.OrderCodeFormat | backend/server.js:388 | every order code is `ORD-` followed by six digits reading 100000..999999 |
| Server.OrderCodesMayCollide | backend/server.js:412 | two different draws can give the same code, so codes are not unique |
| Server.CartRows | backend/server.js:403-437 | one order row per request element |
| Server.CartRowsCarryRequests | backend/server.js:406-427 | the i-th row has the next row id and carries the i-th element's user, product, quantity, final price, address and colour, with a well-formed `ORD-` code and no unit price |
| Server.OrdersOfUser | backend/server.js:440-456 | exactly the user's orders, in order |
| Server.Store.constructor | backend/server.js:27-677 | the catalogue is loaded and the other tables start empty |
| Server.Store.WishlistAdd | backend/server.js:574-601 | 400 and no change without both ids; 409 and no change for a pair already present; otherwise 200 and exactly that row appended; with requests handled one at a time, the table stays duplicate-free |
| Server.Store.WishlistRemove | backend/server.js:604-624 | deletes every row of the pair and no other row; 200 iff a row was deleted, else 404 |
| Server.Store.PlaceOrder | backend/server.js:386-400 | appends exactly one row with the request's fields, its unit price and a fresh `ORD-` code, and returns that code |
| Server.Store.PlaceCartOrders | backend/server.js:403-437 | a missing or empty `orders` list gives 400 and inserts nothing; otherwise it appends one row per element, in order, and returns the new row ids |
| Server.Store.SignupRegister | backend/server.js:267-294 | any empty field gives 400 "All fields are required." and no insert; otherwise it appends one user with the next id and returns its id and name |
| Server.Store.ApplyUserUpdate | backend/server.js:507-523 | the rows with the id are rewritten and the reported count is how many matched |
| Server.Store.SetShippingAddress | backend/server.js:338-359 | 400 and no change without a user id (the form posts it as a string, so "0" is supplied) or with any address field empty; otherwise the address is written, 404 iff no user has the id |
| Server.Store.UpdateProfile | backend/server.js:507-523 | the profile fields are overwritten; 404 iff the user is unknown |
| Server.Store.UpdateProfilePic | backend/server.js:526-544 | 400 and no change without a file; otherwise the picture name is written, 404 iff the user is unknown |
| Server.Store.CardDetails | backend/server.js:547-571 | without an encryption key, 500 and no change; otherwise sets `sp_discount = 1` and the expiry, 404 iff the user is unknown |
| CartPage.Increase | src/components/CartPage.tsx:61-67 | the same items in the same order; each item with the id gets one more unit and all others are unchanged |
| CartPage.Decrease | src/components/CartPage.tsx:69-76 | each item with the id loses one unit, items left at 0 or below are dropped, all survivors are positive, and every other positive item survives unchanged |
| CartPage.DecreaseKeepsOrder | src/components/CartPage.tsx:69-76 | the survivors keep their relative order |
| CartPage.DecreaseUndoesIncrease | src/components/CartPage.tsx:61-76 | on a cart of positive quantities, decrease undoes increase |
| CartPage.IncreaseTotalQuantity | src/components/CartPage.tsx:97-99 | increase raises the total quantity by the number of matching items, so by exactly 1 when ids are unique and the id is present |
| CartPage.OriginalTotalAppend | src/components/CartPage.tsx:79-83 | the original total of price times quantity is additive over concatenation |
| CartPage.TotalPriceWithoutDiscount | src/components/CartPage.tsx:86-95 | with no discount, or one of 0 or less, the total is the original total |
| CartPage.TotalPriceScaled | src/components/CartPage.tsx:86-95 | a positive discount `d` scales the original total by `1 - d/100` |
| CartPage.SavedCardTakesOnePercent | src/components/CartPage.tsx:45-95 | the `sp_discount` flag 1, used as a percentage, takes exactly 1% off |
| CartPage.PlaceOrder | src/components/CartPage.tsx:103-154 | no user redirects to login; an incomplete address opens the modal; an empty cart only warns; otherwise checkout gets the first item's id and quantity and the whole cart's original total |
| CartPage.CartPageState.constructor | src/components/CartPage.tsx:55-58 | the page starts from the stored cart, the stored copy in step |
| CartPage.CartPageState.SetDiscount | src/components/CartPage.tsx:45-53 | the fetched `sp_discount` becomes the discount |
| CartPage.CartPageState.UpdateCart | src/components/CartPage.tsx:55-58 | the cart and its stored copy both become the new list |
| CartPage.CartPageState.IncreaseQuantity | src/components/CartPage.tsx:61-67 | the cart becomes its increase, stays stored, and keeps quantities positive |
| CartPage.CartPageState.DecreaseQuantity | src/components/CartPage.tsx:69-76 | the cart becomes its decrease, stays stored, and every quantity is positive afterwards |
| ProductDetails.IndexOfId | src/components/ProductDetails.tsx:85 | the position of the first item with the id (the `find`), or the length |
| ProductDetails.AddExisting | src/components/ProductDetails.tsx:85-87 | an id already in the cart gets one more unit at its first entry; the length and every other entry are unchanged |
| ProductDetails.AddAbsent | src/components/ProductDetails.tsx:88-90 | a new id is appended with quantity 1, so the length grows by 1 |
| ProductDetails.AddKeepsIdsUnique | src/components/ProductDetails.tsx:81-95 | adding keeps ids unique and raises the total quantity by 1 |
| ProductDetails.CountIsEntriesNotItems | src/components/ProductDetails.tsx:93 | adding a product already present raises the total quantity but not the count of entries that the badge shows |
| ProductDetails.ProductPage.constructor | src/components/ProductDetails.tsx:81-95 | the badge starts at the stored cart's length |
| ProductDetails.ProductPage.AddToCart | src/components/ProductDetails.tsx:81-95 | the stored cart becomes the merged cart and the badge its length |
| ProductDetails.Pick | src/components/ProductDetails.tsx:148-150 | a random pick is one of the options |
| ProductDetails.RandomRating | src/components/ProductDetails.tsx:51 | a generated rating is in 1..5 |
| ProductDetails.ReviewFor | src/components/ProductDetails.tsx:152-158 | a generated review has one of the fake names and a rating in 1..5 |
| ProductDetails.GenerateRandomReviews | src/components/ProductDetails.tsx:145-162 | exactly `count` reviews (none for a count of 0 or less), the i-th made from the i-th draw, each rated 1..5 |
| ProductDetails.InitialReviewCount | src/components/ProductDetails.tsx:108-111 | `min(5, reviews)` for a positive review count, 0 otherwise |
| ProductDetails.ShownReviewCount | src/components/ProductDetails.tsx:164-174 | at most 5, and the same count as on load for a positive review count |
| ProductDetails.NormaliseOffers | src/components/ProductDetails.tsx:230-251 | absent or blank offers give `[]`; an array, given or parsed, is used as is; a parsed non-array, a parse failure and any other value each set their own message and give `[]` |
| ProductDetails.BlankOffersIgnoreParser | src/components/ProductDetails.tsx:232-233 | a blank string is never handed to the parser |
| ProductDetails.BuyNow | src/components/ProductDetails.tsx:253-312 | no user only warns; an incomplete address opens the modal; otherwise checkout gets the product with quantity 1 at its actual price |
| ProductDetails.StockLabel | src/components/ProductDetails.tsx:450-454 | the stock text starts with "O" (of "Only") iff fewer than 55 are in stock |
| ProductDetails.StockLabelUrgentIff | src/components/ProductDetails.tsx:450-454 | below 55 in stock the text is "Only <n> Stocks Left Hurry Up!", otherwise "<n> Stocks Left"; it starts with 'O' iff fewer than 55 are in stock, and the count is always shown |
| Checkout.DiscountedPrice | src/components/Checkout.tsx:107-113 | the query price less 20%, 0 without a price, and never more than the price |
| Checkout.QueryItem | src/components/Checkout.tsx:127-139 | the item built from the query has its product id, quantity defaulting to 1, and the query price as both actual and strike price |
| Checkout.ItemsToOrder | src/components/Checkout.tsx:124-141 | with a product id, exactly one item built from the query, with quantity defaulting to 1; without one, the cart |
| Checkout.OrderData | src/components/Checkout.tsx:176-186 | one entry per item with its product, quantity and colour, all sharing the user, address, price and discounted final price |
| Checkout.CheckoutRowsShared | src/components/Checkout.tsx:176-206 | every row the server inserts for this payload has the same user, address and final price |
| Checkout.Outcome | src/components/Checkout.tsx:115-211 | no items only warns; no user redirects; an incomplete address warns; only a signed-in user with items and a complete address posts, and posts the order data |
| Checkout.NoProductIdNeverPosts | src/components/Checkout.tsx:46 | since `cart` is never filled, a checkout without a product id always ends in the empty-cart warning |
| Checkout.CheckoutPage.constructor | src/components/Checkout.tsx:37-46 | the page starts with no modal, no status and nothing processed |
| Checkout.CheckoutPage.PlaceOrder | src/components/Checkout.tsx:115-211 | follows the outcome; only a posted order answered with 200 clears the stored cart and sets the processed flag; a failed post shows the modal |
| SideBar.Breakpoints | src/components/SideBar.tsx:90-102 | four breakpoints from min to max, with the middle two set by the span as in the table of the source (quarter and half, +100/+250, +250/+500, +500/+1000) |
| SideBar.Step | src/components/SideBar.tsx:104-112 | the rounding step is 10, 50 or 100 |
| SideBar.RoundUp | src/components/SideBar.tsx:104-112 | rounds up (ceil), never down, to the next multiple of the step for the price |
| SideBar.PriceRangesTwentyToEighty | src/components/SideBar.tsx:90-114 | prices 20..80 give the bounds 20, 40, 50, 80: the quarter point 35 is rounded up to 40 |
| SideBar.RoundedNotBelow | src/components/SideBar.tsx:104-112 | every rounded breakpoint is at least its unrounded value |
| SideBar.SortedDistinct | src/components/SideBar.tsx:114 | the `Set` plus `sort`: strictly ascending, with the same values |
| SideBar.InsertFacts | src/components/SideBar.tsx:114 | inserting one value into a strictly ascending list keeps it strictly ascending and adds exactly that value |
| SideBar.PriceRanges | src/components/SideBar.tsx:90-115 | strictly ascending, 1 to 4 values, exactly the rounded breakpoints, holding the rounded min and max, none below min |
| SideBar.Min | src/components/SideBar.tsx:87 | `Math.min` of the prices |
| SideBar.Max | src/components/SideBar.tsx:88 | `Math.max` of the prices |
| SideBar.PriceRangesFor | src/components/SideBar.tsx:85-119 | empty filter data gives no ranges; otherwise exactly the ranges generated between the cheapest and the dearest fetched price: 1 to 4 ascending values, each at or above some price |
| SideBar.Toggle | src/components/SideBar.tsx:137 | a selected value is removed and an unselected one appended; other selections are unchanged |
| SideBar.ToggleTwiceRestores | src/components/SideBar.tsx:135-153 | toggling an absent value twice restores the selection exactly |
| SideBar.ToggleKeepsDistinct | src/components/SideBar.tsx:135-153 | a duplicate-free selection stays duplicate-free |
| SideBar.SideBarState.constructor | src/components/SideBar.tsx:135-164 | nothing is selected at first |
| SideBar.SideBarState.BrandChange | src/components/SideBar.tsx:135-141 | toggles the brand and reports the new selection |
| SideBar.SideBarState.RatingChange | src/components/SideBar.tsx:143-149 | toggles the rating and reports the new selection |
| SideBar.SideBarState.PriceRangeChange | src/components/SideBar.tsx:151-164 | toggles the price and reports `(0, max(selection))`, or `(0, Infinity)` for an empty selection |
| SideBar.MatchedCategoryIn | src/components/SideBar.tsx:62-66 | a listed category whose lowercase space-free form equals the search's, or nothing when none does |
| SideBar.MatchedUnique | src/components/SideBar.tsx:64-66 | over names that stay distinct once normalised, the match is the one name that matches |
| SideBar.MatchedCategoryIsUnique | src/components/SideBar.tsx:64-66 | over the category list, the `find` returns the one category that matches |
| SideBar.FiltersRequestFor | src/components/SideBar.tsx:60-79 | no request iff neither category nor search; a search naming no known category asks by the category parameter, else by the search; a category request for a matched search names the matched category |
| SideBar.FiltersRequestWith | src/components/SideBar.tsx:59-79 | a search naming a category asks by that category; else the category parameter; else the search; with neither, no request |
| SideBar.CategoryNameShown | src/components/SideBar.tsx:33-54 | a search that is a category name is shown as is; otherwise the server's answer for the search; without a search, the category parameter |
| SearchResults.FetchedProducts | src/components/SearchResults.tsx:56-68 | a search fetches the search results; else a category fetches its products (nothing on a failed request); with neither, `[]` |
| SearchResults.SearchWinsOverCategory | src/components/SearchResults.tsx:58-66 | with a search, the category parameter makes no difference |
| SearchResults.BrandStep | src/components/SearchResults.tsx:99-101 | an empty brand selection keeps everything; otherwise only selected brands |
| SearchResults.RatingStep | src/components/SearchResults.tsx:103-105 | an empty rating selection keeps everything; otherwise only products whose floored rating is selected |
| SearchResults.FilterProducts | src/components/SearchResults.tsx:95-111 | no longer than the input, and every product kept is in the input and passes the brand, rating and price tests |
| SearchResults.FilterProductsIsConjunction | src/components/SearchResults.tsx:97-109 | the three filters in a row are one filter by the conjunction, so their order does not matter |
| SearchResults.FilteredProductsSpec | src/components/SearchResults.tsx:95-111 | the result is an in-order subsequence holding exactly the products that pass all three tests |
| SearchResults.DefaultsKeepAll | src/components/SearchResults.tsx:43-44 | no selection and the default price bounds 0 and `Infinity` keep every product with a non-negative price |
| Categories.AllCategoryNames | src/data/categories.tsx:36-39 | the electronics names followed by the fashion names, in declaration order |
| Categories.AllCategoryNamesListed | src/data/categories.tsx:16-39 | there are 11 electronics and 3 fashion categories, with these 14 names |
| Categories.DeclaredNamesDistinct | src/data/categories.tsx:16-34 | the declared names are pairwise distinct |
| Categories.AllCategoryNamesDistinct | src/data/categories.tsx:36-39 | the 14 names are pairwise distinct |
| Categories.NormalisedCategoryNames | src/data/categories.tsx:16-39 | each name's lowercase space-free form, name by name |
| Categories.NormalisedNamesDistinct | src/data/categories.tsx:16-39 | the names stay pairwise distinct once lowercased and stripped of whitespace |
| MostPopular.PageCount | src/components/MostPopular.tsx:93 | the least count of 16-product pages that holds every product |
| MostPopular.PageNumbers | src/components/MostPopular.tsx:92-95 | exactly `1..count` |
| MostPopular.PageSlice | src/components/MostPopular.tsx:79-81 | page `p` is the slice `[(p-1)*16, p*16)` of the list, at most 16 long |
| MostPopular.PagesArePrefix | src/components/MostPopular.tsx:79-81 | the first `k` pages in a row are the list's first `16k` products |
| MostPopular.PagesPartition | src/components/MostPopular.tsx:79-81 | all pages in a row are the whole list, in order |
| MostPopular.Window | src/components/MostPopular.tsx:100-117 | up to 5 pages give `1..count`; more give exactly 5 consecutive pages inside `1..count` |
| MostPopular.WindowShape | src/components/MostPopular.tsx:102-117 | up to 5 pages show all; otherwise exactly 5 consecutive pages inside `1..count`, holding an in-range current page and centred on it away from the ends |
| MostPopular.Buttons | src/components/MostPopular.tsx:127-138 | one button per page of the window, in order, marked active iff it is the current page |
| MostPopular.PushButtons | src/components/MostPopular.tsx:127-138 | the loop appends the window's buttons |
| MostPopular.RenderPagination | src/components/MostPopular.tsx:97-178 | Previous, leading ellipsis, the window's buttons, trailing ellipsis, Next, in that order |
| MostPopular.PaginationMarksCurrent | src/components/MostPopular.tsx:127-138 | for an in-range current page, its button is shown and is the only active one |
| MostPopular.PaginationControls | src/components/MostPopular.tsx:119-164 | Previous shows iff there is an earlier page, Next iff there is a later one, an ellipsis iff there are more than 5 pages |
| MostPopular.ShowPaginationIffSeveralPages | src/components/MostPopular.tsx:246 | the bar shows (above 16 products) iff there are at least 2 pages |
| MostPopular.CategoryParam | src/components/MostPopular.tsx:25-28 | "All" sends no category parameter, any other category sends one |
| MostPopular.AllNeedsNoParam | src/components/MostPopular.tsx:25-28 | the server answers a missing category and "All" alike, so dropping it loses nothing |
| MostPopular.MostPopularState.constructor | src/components/MostPopular.tsx:8-21 | no products, category "All", page 1 |
| MostPopular.MostPopularState.ProductsFetched | src/components/MostPopular.tsx:32-38 | fetched products replace the list and the page resets to 1 |
| MostPopular.MostPopularState.CategoryClick | src/components/MostPopular.tsx:68-71 | selects the category and fetches with its parameter |
| MostPopular.MostPopularState.Paginate | src/components/MostPopular.tsx:83-90 | moves to the page |
| Discount.FormatCardNumber | src/components/Discount.tsx:53-63 | the input's digits in order, a space before every fourth digit and nowhere else, length `d + (d-1)/4`, no leading or trailing space |
| Discount.FormatExpiry | src/components/Discount.tsx:69-91 | at most 5 characters: only digits, or two digits, a slash and digits |
| Discount.FormatExpiryClamps | src/components/Discount.tsx:69-91 | the result is "12" iff the leading month digits exceed 12 or "12" was typed |
| Discount.FormatExpiryKeepsDigits | src/components/Discount.tsx:70-90 | unless clamped, the result carries exactly the first four digits typed |
| Discount.FormatExpiryIdempotent | src/components/Discount.tsx:69-91 | formatting a formatted expiry changes nothing |
| Discount.PartialExpiry | src/components/Discount.tsx:82-90 | three typed digits with a month of at most 12 already read `MM/Y`, the slash at index 2 |
| Discount.FullExpiry | src/components/Discount.tsx:109-112 | a formatted expiry with four digits reads `MM/YY` with a month of at most 12 |
| Discount.ExpiryMonthYear | src/components/Discount.tsx:124-126 | the month is the two digits before the slash, at most 12, and the year is 2000 plus the two digits after it |
| Discount.ParseCentury | src/components/Discount.tsx:126 | `parseInt('20' + yy)` of two digits is 2000 + yy |
| Discount.Cvv | src/components/Discount.tsx:97-100 | the first three of the input's digits: only digits, every digit kept when fewer than 3 were typed, else exactly 3 |
| Discount.CvvIdempotent | src/components/Discount.tsx:97-100 | sanitising twice is sanitising once |
| Discount.Payment | src/components/Discount.tsx:102-155 | the card details are sent iff there are 16 card digits, 4 expiry digits, a 3-digit CVV and a user; then the body carries the card digits with the spaces removed, the CVV as entered, and the month and year read from the formatted expiry |
| Discount.DiscountPage.constructor | src/components/Discount.tsx:23-42 | nothing is known and nothing shown at first |
| Discount.DiscountPage.UserFetched | src/components/Discount.tsx:24-42 | records the email; the discount counts as claimed iff `sp_discount` is 1 |
| Discount.DiscountPage.EmailSubmit | src/components/Discount.tsx:44-51 | the email is valid iff it equals the logged-in email exactly, and only then does the card form open |
| LoginSignup.IsEmailIff | src/components/LoginSignup.tsx:56-59 | the email test holds iff the input reads X@Y.Z with X, Y, Z non-empty and free of whitespace and '@' |
| LoginSignup.MobileSanitise | src/components/LoginSignup.tsx:222-228 | the first ten of the digits typed: only digits, every digit kept when fewer than 10 were typed, else exactly 10; a phone number iff at least 10 were typed |
| LoginSignup.MobileSanitiseIdempotent | src/components/LoginSignup.tsx:225 | sanitising twice is sanitising once |
| LoginSignup.NameSanitise | src/components/LoginSignup.tsx:230-236 | always a valid name, made of the input's characters in order, keeping every occurrence of every letter and whitespace character and nothing else |
| LoginSignup.NameSanitiseIdempotent | src/components/LoginSignup.tsx:233 | sanitising twice is sanitising once |
| LoginSignup.NameSanitiseFixesValid | src/components/LoginSignup.tsx:233 | sanitising leaves a name unchanged iff it was already valid |
| LoginSignup.Form.With | src/components/LoginSignup.tsx:50-54 | sets one field and leaves the others |
| LoginSignup.LoginErrors | src/components/LoginSignup.tsx:79-90 | login validation never reports signup fields |
| LoginSignup.SignupErrors | src/components/LoginSignup.tsx:91-123 | signup validation never reports the login identifier |
| LoginSignup.LoginErrorsIff | src/components/LoginSignup.tsx:79-90 | login passes iff the identifier is non-blank and an email or phone number and the password is non-blank |
| LoginSignup.SignupErrorsIff | src/components/LoginSignup.tsx:91-123 | signup passes iff the mobile is 10 digits, the name is non-blank and valid, the email is valid and the password is non-blank with at least 6 characters |
| LoginSignup.ValidateSignup | src/components/LoginSignup.tsx:91-123 | the accumulated errors are the signup errors, and the flag is set iff there are none |
| LoginSignup.LoginSignupPage.constructor | src/components/LoginSignup.tsx:39-54 | login mode with empty fields and no errors |
| LoginSignup.LoginSignupPage.SyncMode | src/components/LoginSignup.tsx:39-46 | signup mode iff the `signup` parameter is "true" |
| LoginSignup.LoginSignupPage.HandleChange | src/components/LoginSignup.tsx:50-54 | sets the field and clears its error |
| LoginSignup.LoginSignupPage.HandleMobileNumberChange | src/components/LoginSignup.tsx:222-228 | stores the sanitised mobile (digits only, at most 10) and clears its error |
| LoginSignup.LoginSignupPage.HandleNameChange | src/components/LoginSignup.tsx:230-236 | stores the sanitised, valid name and clears its error |
| LoginSignup.LoginSignupPage.ValidateForm | src/components/LoginSignup.tsx:75-127 | the errors become those of the current mode; valid iff there are none, iff the form passes that mode's rules |
| LoginSignup.LoginSignupPage.RequestPayload | src/components/LoginSignup.tsx:134-146 | login sends identifier, password and an `isEmail` flag set iff the identifier is an email, and a valid identifier that is not one is a phone number; signup sends the four fields |
| LoginSignup.LoginSignupPage.Succeeded | src/components/LoginSignup.tsx:155-165 | the form is cleared |
| LoginSignup.LoginSignupPage.Failed | src/components/LoginSignup.tsx:172-216 | no message gives "Something went wrong."; "Incorrect password!" in login goes to the password; a signup field error goes to its field; any other message goes to the identifier; the password error is otherwise cleared |
| HeartButton.FailedClickStaysFlipped | src/components/HeartButton.tsx:39-56 | as written, a failed request leaves the heart flipped |
| HeartButton.RejectedAddShowsLiked | src/components/HeartButton.tsx:39-56 | as written, an add whose request fails still shows the heart filled |
| HeartButton.RevertingTracksServer | src/components/HeartButton.tsx:39-56 | with a true revert, the heart changes iff the request succeeds |
| HeartButton.HeartButtonState.constructor | src/components/HeartButton.tsx:21 | the heart starts unfilled until synced |
| HeartButton.HeartButtonState.Sync | src/components/HeartButton.tsx:24-28 | `liked` follows `initialLiked` |
| HeartButton.HeartButtonState.HandleLike | src/components/HeartButton.tsx:31-58 | without a user, redirects and leaves `liked` alone; otherwise posts remove iff it was liked, notifies a removal only on 200 with a callback, and ends flipped whatever the answer |
| Wishlist.WishlistPage.constructor | src/components/Wishlist.tsx:29-54 | empty lists, no error, loading |
| Wishlist.WishlistPage.FetchWishlist | src/components/Wishlist.tsx:29-54 | without a user, goes to login and fetches nothing; otherwise stores the products (and their ids) or sets an error; stops loading |
| Wishlist.WishlistPage.RemoveFromWishlist | src/components/Wishlist.tsx:56-59 | both lists drop every entry with the id, in step, keeping the ids list the products' ids |
| Wishlist.RemovalDropsExactlyThatId | src/components/Wishlist.tsx:57 | removal keeps exactly the products with other ids, and shortens the list iff the id was there |
| Wishlist.RemovingAbsentIdChangesNothing | src/components/Wishlist.tsx:56-59 | removing an absent id changes neither list |
| HeroCarousel.Next | src/components/HeroCarousel.tsx:79-82 | `(i + 1) mod n`: in range, the next index, wrapping to 0 |
| HeroCarousel.Prev | src/components/HeroCarousel.tsx:84-87 | `(i - 1 + n) mod n`: in range, the previous index, wrapping to the last |
| HeroCarousel.PrevAfterNext | src/components/HeroCarousel.tsx:79-87 | prev after next returns to the index |
| HeroCarousel.NextAfterPrev | src/components/HeroCarousel.tsx:79-87 | next after prev returns to the index |
| HeroCarousel.NextTimes | src/components/HeroCarousel.tsx:60-65 | repeated auto-slide ticks stay in range |
| HeroCarousel.NextTimesAdd | src/components/HeroCarousel.tsx:60-65 | `a` ticks then `b` ticks are `a + b` ticks |
| HeroCarousel.FullTurn | src/components/HeroCarousel.tsx:60-65 | `n` ticks on `n` slides return to the start |
| HeroCarousel.FiveNextsReturn | src/components/HeroCarousel.tsx:16-57 | with the five slides, five nexts return to the start |
| HeroCarousel.SlidesLinkToCategories | src/components/HeroCarousel.tsx:16-57 | there are 5 slides and each links to a known category |
| HeroCarousel.SwipeFor | src/components/HeroCarousel.tsx:101-108 | a swipe of at most 50 pixels does nothing, one to the right goes back, one to the left goes forward |
| HeroCarousel.Carousel.constructor | src/components/HeroCarousel.tsx:16-57 | the first slide is shown |
| HeroCarousel.Carousel.GoToNext | src/components/HeroCarousel.tsx:79-82 | moves to the next slide |
| HeroCarousel.Carousel.GoToPrev | src/components/HeroCarousel.tsx:84-87 | moves to the previous slide |
| HeroCarousel.Carousel.TouchEnd | src/components/HeroCarousel.tsx:101-108 | moves as the swipe says |
| HeroCarousel.Carousel.DotClick | src/components/HeroCarousel.tsx:145-154 | dot `k` shows slide `k` |
| WeeklyDeal.Units | src/components/WeeklyDeal.tsx:31-35 | seconds and minutes below 60, hours below 24 |
| WeeklyDeal.UnitsReconstruct | src/components/WeeklyDeal.tsx:31-35 | `days*86400 + hours*3600 + minutes*60 + seconds` is the whole seconds of `ms` |
| WeeklyDeal.FormatTime | src/components/WeeklyDeal.tsx:31-37 | the text reads back as the days, hours, minutes and seconds of the remaining time |
| WeeklyDeal.FormatTimeShape | src/components/WeeklyDeal.tsx:36 | the text is `<d>d <h>h <m>m <s>s`, each number in decimal reading back as its unit, hours, minutes and seconds with at most two digits |
| WeeklyDealPage.WeeklyDealPageState.constructor | src/components/WeeklyDealPage.tsx:21-51 | no deals, no error, no wishlist |
| WeeklyDealPage.WeeklyDealPageState.WeeklyDealsFetched | src/components/WeeklyDealPage.tsx:21-36 | fetched deals replace the list; a failed fetch keeps it and sets "Failed to load weekly deals. Please try again." |
| WeeklyDealPage.WeeklyDealPageState.WishlistFetched | src/components/WeeklyDealPage.tsx:38-51 | the wishlist is the fetched products' ids for a signed-in user, else empty |
| WeeklyDealPage.WeeklyDealPageState.RemoveFromWishlist | src/components/WeeklyDealPage.tsx:84-86 | drops every occurrence of the id and keeps the other ids in order |

The countdown text of `src/components/WeeklyDealPage.tsx:76-82` is the same
`formatTime` as `src/components/WeeklyDeal.tsx:31-37`, so `WeeklyDeal.FormatTime`
and its lemmas model both.

## Left out

- Network, storage and browser effects are left out: axios requests, `localStorage` and `sessionStorage`, navigation, toasts, scrolling, the `setTimeout` delays and the carousel's `setInterval`. Their results are parameters or are not modelled.
- The database connection pool and its reconnect loop (`backend/config/db.js`) are left out as I/O.
- The 500 replies of the handlers (database errors) are left out.
- The multer file upload is left out. `Server.Store.UpdateProfilePic` models only the write of the file name.
- The `AES_ENCRYPT` call of the card-details handler is a foreign call. `Server.Store.CardDetails` models the flag, the expiry write and the 404.
- Concurrency between requests is left out. Every handler runs to completion before the next request, as one atomic step. So the race of `/wishlist/add` (backend/server.js:581-599) is not captured: it checks for the pair in one query and inserts in a later callback, and two concurrent adds of the same pair can both insert. `Server.Store.WishlistAdd` keeps the table duplicate-free only under this one-at-a-time assumption.
- `Server.Store.WishlistAdd`, `Server.Store.WishlistRemove`: the body ids are numbers, and 0 counts as missing. The heart button sends `userId` as the string read from `localStorage` (src/components/HeartButton.tsx:7,44). For that client a `userId` of "0" is truthy and would reach the query, which the model does not capture.
- `Promise.all` in `/orders-cart` is left out. The inserts are modelled as a sequential loop, with no partial commit. The row ids are consecutive from the table's counter.
- The address of an order is stored as the address record, not as its JSON text.
- `Math.random` is a parameter in `[0, 1)`. This covers the order-code suffix and the fake names, ratings and comments of generated reviews.
- IEEE floating point is left out: prices, totals and discounts are exact reals. Ratings are floored with `.Floor`. `toFixed`, `Math.round` percentages and `parseFloat` are not modelled.
- The order in which a total is summed does not matter for reals. It does matter for floats.
- `WeeklyDeal.Units`: the source takes the floor of float divisions, `Math.floor((ms / 1000) % 60)` and so on. The model uses integer division and remainder on `ms >= 0`. The two are taken to agree for non-negative `ms`; this is not proved.
- The end time of the weekly deal (`getEndTime`, from `Date`) and the countdown timer are left out. `FormatTime` takes the remaining milliseconds as input.
- SQL `LIKE` is plain substring containment. A `%` or `_` typed by the user is not a wildcard. Collation is not modelled.
- Unicode is left out. Lowercasing is ASCII. Whitespace is one of two ASCII tests:
  - JavaScript's `\s` and `trim()` and SQL's `TRIM` use the six characters space, tab, line feed, carriage return, vertical tab and form feed (`Text.IsSpace`). SQL's `TRIM` really removes only spaces, so a tab at the end of a category is trimmed in the model but not by MySQL.
  - SQL's `REPLACE(.., ' ', '')` removes only the space character (`Text.RemoveBlanks`).
- `encodeURIComponent` is left out. Query strings carry their values unchanged.
- The render-only components are left out: the navigation bar, footer, policy pages, contact page, modals, breadcrumbs, loading skeletons and styling. The fetch wrappers of the profile, shipping-address, search and orders pages are left out too.
- `Server.LoginUser`: the two login failures carry distinct messages, "User not found! Please check your credentials." and "Incorrect password!". So login reveals whether the email or mobile number is registered, and the model keeps this.
- `SideBar.RoundUp`: breakpoints round up with `Math.ceil` (src/components/SideBar.tsx:104-112), not to the nearest step. So prices 20..80 give 20, 40, 50, 80 (`SideBar.PriceRangesTwentyToEighty`).
- `Server.FiltersSearch`: the `/filters` name fallback (backend/server.js:119-124) keeps spaces and only lowercases, while `/products` (backend/server.js:174-179) strips them. The model keeps both as written.
- The CartPage discount is the `sp_discount` flag itself, used as a percentage: a saved card takes 1% off (`CartPage.SavedCardTakesOnePercent`). The model keeps this as written.
- The Checkout page's `cart` is never filled. A checkout without a product id therefore always ends in the empty-cart warning (`Checkout.NoProductIdNeverPosts`). The model keeps this as written.
- The card-details request of `src/components/Discount.tsx` goes to the literal address `"${API}/card-details"`: the string uses double quotes, so it is not a template. That request is I/O and is not modelled. `Discount.Payment` stops at the request body.
- `LoginSignup.LoginSignupPage.Failed`: of a signup reply's `errors` object only the first key and its message are used, as in the source. An `errors` object with no keys, or whose first key is not a form field, is not modelled. The server never sends `errors`, so this branch is not reached against this back end.
- `LoginSignup.LoginErrors`, `LoginSignup.SignupErrors`: the error texts are modelled as the literal messages of the source. The contracts constrain which fields can carry an error and when the form passes, not the wording.
- `HeartButton.HeartButtonState.HandleLike` follows the code as written, where a failure does not undo the flip. The corrected revert is modelled alongside it (see Findings).

## Findings

| source | as written | input that shows it | evidently intended | confidence | as-written member | corrected member |
|---|---|---|---|---|---|---|
| src/components/HeartButton.tsx:39-56 | after the optimistic `setLiked(!liked)`, both failure branches call `setLiked(!liked)` again with the value captured before the click, so the heart stays flipped | an unliked heart, a signed-in user and an add request that throws: the heart ends filled although nothing was added | a failed request puts the heart back to its state before the click | not executed | HeartButton.LikedAfterClick, HeartButton.RejectedAddShowsLiked | HeartButton.RevertingLikedAfterClick, HeartButton.RevertingTracksServer |
