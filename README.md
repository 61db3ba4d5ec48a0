# Storefront core, modelled in Dafny

This project models the client-side logic of a small electrical-goods storefront:

- **Cart.** The reducer keeps one line per product id, adding, removing, re-quantifying, clearing and loading lines. Its totals are folds over the lines. The provider mirrors the lines to the `cart` storage key, and erases the key when the cart is empty.
- **Wishlist.** A duplicate-free product list with add, remove, toggle and clear. It is mirrored to the `wishlist` key on every change, even when empty.
- **Product alerts.** A newest-first list of notification records with mark-read, remove and per-product queries. It is mirrored to a per-user `notifications_<uid>` key.
- **Session.** Mocked login and register derive an identity, store it under `user` and restore it on start. Logout drops the identity and its key.
- **Catalogue page.** Search, category and price-range filtering; the sort select and the four orderings; pagination and the five-button page window; the URL-parameter handlers.
- **Product page.** Lookup by the route id, the merge of detail fields, the related-product selection, the quantity stepper and the add-to-cart button.
- **Checkout.** The checkout form rules; the submit transition that empties the cart; which view the page shows.
- **Registration.** The password-strength meter, the sign-up form rules and the terms-accepted guard.
- **Header.** The `isActive` path predicate.
- **Product record.** The constraints and defaults of the server-side product schema.

## Modelling choices

- **Money.** Prices are integer pesewas, so 9.99 becomes 999. The price-range parameter of the catalogue URL is in whole cedis, and a bound `N` is compared with a price as `N * 100`.
- **Ratings.** Ratings are tenths of a star, and a missing rating is 0.
- **Storage.** `localStorage` is a `LocalStorage.Storage` object holding a `map<string, string>`. Every provider that persists shares it. Provider methods state the new map in full.
- **JSON.** `JSON.stringify`/`JSON.parse` become a self-delimiting value codec (module `Json`). Its one promise is the round trip `Parse(Stringify(v)) == Some(v)`. Every stored record (cart line, product, notification, identity) is encoded through it. Each record type has its own round-trip lemma.
- **Providers and views.** React providers and page components whose state the source replaces with `set…`/`dispatch` are classes. Their fields are that state, and their methods are the handlers. The reducers and queries they call are module-level functions, and the lemmas are about those functions.
- **Nondeterministic inputs.** `Date.now()`, `new Date().toISOString()` and `Math.random()` are method parameters (`now`, `createdAt`, `n`). yup's `email()` test is an opaque `isEmail` parameter.
- **Strings.** Strings are `seq<char>`. Case folding covers ASCII letters only.

Two behaviours of the code that the model keeps as written:

- **Switching users.** In `frontend/src/contexts/NotificationContext.jsx:16-24`, a user with no saved alert list keeps the previous user's list in memory, and the save effect then writes it under the new user's key. `NotificationContext.NotificationProvider.UserChanged` states exactly that.
- **Signed-out operations.** `addNotification`, `markAsRead` and `removeNotification` change the in-memory list even when nobody is signed in; only the write to storage is skipped. The model does the same.

## Model

| member | source | states |
|---|---|---|
| LocalStorage.Storage.GetItem | frontend/src/contexts/CartContext.jsx:63 | a key that is present yields its value; an absent key yields nothing |
| LocalStorage.Storage.SetItem | frontend/src/contexts/CartContext.jsx:77 | the key now maps to the value and every other key is unchanged |
| LocalStorage.Storage.RemoveItem | frontend/src/contexts/CartContext.jsx:79 | the key is gone and every other key is unchanged |
| Json.ParseStringify | frontend/src/contexts/CartContext.jsx:66-77 | parsing the text that stringify produced gives back the same value |
| Json.DecodeStringify | frontend/src/contexts/CartContext.jsx:66-77 | decoding an encoded value followed by any text returns the value and exactly that remaining text |
| JsonList.DecodeEncodeList | frontend/src/contexts/CartContext.jsx:66-77 | a list encoded element by element decodes back to the same list when each element round-trips |
| Catalog.ProductRoundTrip | frontend/src/contexts/WishlistContext.jsx:17-25 | a product's stored form reads back as the same product |
| Catalog.ProductFromValue | frontend/src/contexts/WishlistContext.jsx:17 | any value accepted as a product is exactly that product's stored form |
| Catalog.ParseSerializeProducts | frontend/src/contexts/WishlistContext.jsx:17-25 | a saved product list parses back to the same list |
| CartContext.AddedQuantity | frontend/src/contexts/CartContext.jsx:20 | `payload.quantity \|\| 1` is never 0: it is the payload quantity when that is present and non-zero, and 1 when it is missing or 0 |
| CartContext.FindIndex | frontend/src/contexts/CartContext.jsx:12-14 | -1 exactly when no line has the id, otherwise the first line with it |
| CartContext.Add | frontend/src/contexts/CartContext.jsx:11-29 | a present id: the first matching line gains the added quantity, keeps its product and position, and every other line is unchanged; an absent id: exactly one line with the added quantity is appended |
| CartContext.Remove | frontend/src/contexts/CartContext.jsx:31-35 | no line with the id remains; the lines kept are exactly those with other ids |
| CartContext.SetQuantity | frontend/src/contexts/CartContext.jsx:37-45 | same length; matching lines get exactly the new quantity with the same product, other lines are untouched |
| CartContext.TotalAppend | frontend/src/contexts/CartContext.jsx:112-117 | the total of two carts laid end to end is the sum of their totals (price × quantity summed line by line) |
| CartContext.CountAppend | frontend/src/contexts/CartContext.jsx:119-121 | the count of two carts laid end to end is the sum of their counts |
| CartContext.CountAtLeastLines | frontend/src/contexts/CartContext.jsx:119-121 | while every line holds at least one unit, the count is at least the number of lines |
| CartContext.QuantityOfAppend | frontend/src/contexts/CartContext.jsx:112-121 | the quantity held for an id is additive over concatenation |
| CartContext.QuantityOfAbsent | frontend/src/contexts/CartContext.jsx:12-16 | a cart with no line for an id holds none of it |
| CartContext.AddQuantityOf | frontend/src/contexts/CartContext.jsx:11-29 | adding raises the quantity held for the payload's id by `quantity \|\| 1`, and no other id's quantity changes |
| CartContext.AddCount | frontend/src/contexts/CartContext.jsx:11-29 | adding raises the count by `quantity \|\| 1` |
| CartContext.AddTotal | frontend/src/contexts/CartContext.jsx:11-29 | adding raises the total by the added quantity at the stored line's price (present id) or the payload's price (new id) |
| CartContext.TotalReplace | frontend/src/contexts/CartContext.jsx:18-21 | replacing one line changes the total by the difference of the two lines' subtotals |
| CartContext.AddKeepsUnique | frontend/src/contexts/CartContext.jsx:11-29 | adding keeps at most one line per id |
| CartContext.AddLength | frontend/src/contexts/CartContext.jsx:16-28 | adding grows the cart by one line exactly when the id was absent |
| CartContext.RemoveAppend | frontend/src/contexts/CartContext.jsx:34 | removal distributes over concatenation, so the kept lines stay in order |
| CartContext.RemoveAbsent | frontend/src/contexts/CartContext.jsx:34 | removing an absent id leaves the cart unchanged |
| CartContext.RemoveCount | frontend/src/contexts/CartContext.jsx:31-35 | removing an id lowers the count by exactly the quantity it held |
| CartContext.RemoveKeepsUnique | frontend/src/contexts/CartContext.jsx:31-35 | removing keeps at most one line per id |
| CartContext.SetQuantityOf | frontend/src/contexts/CartContext.jsx:37-45 | after an update, the id holds exactly the new quantity if it was present (none otherwise), and every other id keeps its quantity |
| CartContext.SetQuantityKeepsIds | frontend/src/contexts/CartContext.jsx:37-45 | an update keeps every line's id in place, and so keeps ids unique |
| CartContext.ReduceKeepsUnique | frontend/src/contexts/CartContext.jsx:9-56 | every reducer action (a load of duplicate-free lines included) keeps at most one line per id |
| CartContext.AddAllQuantity | frontend/src/contexts/CartContext.jsx:11-29 | a run of additions raises an id's quantity by the sum of its added quantities and keeps ids unique |
| CartContext.BulbAddedTwice | frontend/src/contexts/CartContext.jsx:11-29 | adding the bulb with quantity 1 and then 2 gives one line of 3, total 2997, count 3 |
| CartContext.LineFromValue | frontend/src/contexts/CartContext.jsx:66 | a value accepted as a cart line is exactly that line's stored form |
| CartContext.ParseSerializeItems | frontend/src/contexts/CartContext.jsx:66-77 | saved cart lines parse back to the same lines |
| CartContext.LoadedItems | frontend/src/contexts/CartContext.jsx:62-72 | no saved value, or a corrupt one, leaves the cart empty |
| CartContext.SaveCart | frontend/src/contexts/CartContext.jsx:75-81 | afterwards the `cart` key holds the serialised lines if there are any and is absent otherwise; no other key changes |
| CartContext.ReloadAfterSave | frontend/src/contexts/CartContext.jsx:62-81 | loading what the save effect wrote gives back the same lines, the empty cart included |
| CartContext.AddToCartPayload | frontend/src/contexts/CartContext.jsx:83-88 | the payload carries the product and the second argument as its quantity, overriding any quantity on the product |
| CartContext.CartProvider.constructor | frontend/src/contexts/CartContext.jsx:59-81 | mounting loads the saved lines (empty when missing or corrupt) and then runs the save effect |
| CartContext.CartProvider.Save | frontend/src/contexts/CartContext.jsx:75-81 | the storage map becomes the save of the current lines, and the persistence invariant holds |
| CartContext.CartProvider.Dispatch | frontend/src/contexts/CartContext.jsx:9-56 | the lines become the reducer's result and are saved |
| CartContext.CartProvider.AddToCart | frontend/src/contexts/CartContext.jsx:83-88 | the lines become `Add` of the built payload, are saved, and stay unique per id |
| CartContext.CartProvider.RemoveFromCart | frontend/src/contexts/CartContext.jsx:90-95 | the lines become `Remove` of the id, are saved, and stay unique per id |
| CartContext.CartProvider.UpdateQuantityOf | frontend/src/contexts/CartContext.jsx:97-106 | a quantity below 1 removes the id; otherwise the id's lines get exactly that quantity; saved, ids stay unique |
| CartContext.CartProvider.Clear | frontend/src/contexts/CartContext.jsx:108-110 | the cart is empty and the `cart` key is erased, nothing else changes |
| WishlistContext.InList | frontend/src/contexts/WishlistContext.jsx:29-31 | true exactly when some entry has the id |
| WishlistContext.RemoveId | frontend/src/contexts/WishlistContext.jsx:41-43 | no entry with the id remains; the kept entries are exactly those with other ids |
| WishlistContext.Toggled | frontend/src/contexts/WishlistContext.jsx:45-52 | toggling flips the product's membership |
| WishlistContext.AddedProps | frontend/src/contexts/WishlistContext.jsx:33-39 | after adding, the product is in the list; other ids' membership is unchanged; ids stay unique |
| WishlistContext.RemoveIdAppend | frontend/src/contexts/WishlistContext.jsx:42 | removal distributes over concatenation, so the kept entries stay in order |
| WishlistContext.RemoveIdAbsent | frontend/src/contexts/WishlistContext.jsx:41-43 | removing an absent id leaves the list unchanged |
| WishlistContext.RemoveIdUnique | frontend/src/contexts/WishlistContext.jsx:41-43 | in a duplicate-free list, removing drops exactly the one entry with the id |
| WishlistContext.RemoveIdKeepsUnique | frontend/src/contexts/WishlistContext.jsx:41-43 | removal keeps ids unique |
| WishlistContext.ToggledKeepsUnique | frontend/src/contexts/WishlistContext.jsx:45-52 | toggling keeps ids unique |
| WishlistContext.ToggleTwice | frontend/src/contexts/WishlistContext.jsx:45-52 | for any list, toggling twice restores membership; a member comes back as the given snapshot at the end of the list (every entry with its id removed before), a non-member leaves the list as it was |
| WishlistContext.WishlistProvider.constructor | frontend/src/contexts/WishlistContext.jsx:14-27 | a saved list is loaded and written back; none gives the empty list, written back in serialised form; a corrupt one aborts the load, leaving the provider loading with nothing written |
| WishlistContext.WishlistProvider.Save | frontend/src/contexts/WishlistContext.jsx:23-27 | once loaded, the `wishlist` key holds the serialised list; while loading, nothing is written |
| WishlistContext.WishlistProvider.AddToWishlist | frontend/src/contexts/WishlistContext.jsx:33-39 | returns true exactly for a non-member; a non-member is appended and, once loaded, only the wishlist key changes, to the serialised list; a member, or a write while loading, leaves storage unchanged; ids stay unique |
| WishlistContext.WishlistProvider.RemoveFromWishlist | frontend/src/contexts/WishlistContext.jsx:41-43 | the list becomes `RemoveId` of the id; once loaded only the wishlist key changes, to the serialised list; while loading storage is unchanged |
| WishlistContext.WishlistProvider.ToggleWishlist | frontend/src/contexts/WishlistContext.jsx:45-52 | the list is toggled and the result is the new membership, the opposite of the old one; once loaded only the wishlist key changes, to the serialised list; while loading storage is unchanged |
| WishlistContext.WishlistProvider.ClearWishlist | frontend/src/contexts/WishlistContext.jsx:54-56 | the list is empty; once loaded only the wishlist key changes, to the serialised empty list; while loading storage is unchanged |
| NotificationContext.NewNotification | frontend/src/contexts/NotificationContext.jsx:37-44 | for each of id, productId, type, createdAt, read and fulfilled: a value the payload carries wins, and an absent one takes its default (`String(now)`, the given product, type and timestamp, `false`, `false`); other payload fields are kept |
| NotificationContext.MarkRead | frontend/src/contexts/NotificationContext.jsx:50-58 | same length and order; records with the id become read, the others are untouched |
| NotificationContext.RemoveById | frontend/src/contexts/NotificationContext.jsx:60-64 | the kept records are exactly those with another id |
| NotificationContext.ForProduct | frontend/src/contexts/NotificationContext.jsx:66-68 | the result holds exactly the records of the product |
| NotificationContext.HasActive | frontend/src/contexts/NotificationContext.jsx:71-75 | true exactly when some record has the product and type and is not fulfilled |
| NotificationContext.AddGrows | frontend/src/contexts/NotificationContext.jsx:36-48 | when the payload overrides neither product nor type, adding grows that product/type count by one, so a repeated subscription is not merged |
| NotificationContext.AddThenActive | frontend/src/contexts/NotificationContext.jsx:36-48 | right after adding (without overriding product, type or fulfilled), `hasNotification` holds for that product and type |
| NotificationContext.MarkReadKeepsActive | frontend/src/contexts/NotificationContext.jsx:50-58 | marking as read never changes `hasNotification` |
| NotificationContext.MarkReadIdempotent | frontend/src/contexts/NotificationContext.jsx:50-58 | marking twice equals marking once; ids, products and types are kept |
| NotificationContext.RemoveByIdAppend | frontend/src/contexts/NotificationContext.jsx:60-64 | removal distributes over concatenation, so kept records stay in order |
| NotificationContext.ForProductAppend | frontend/src/contexts/NotificationContext.jsx:66-68 | the product filter distributes over concatenation, so it keeps list order |
| NotificationContext.RemoveOnlyMatch | frontend/src/contexts/NotificationContext.jsx:60-75 | removing the only active record for a product and type clears `hasNotification` |
| NotificationContext.Ids | frontend/src/components/notifications/NotificationList.jsx:36 | the ids of the list, position by position |
| NotificationContext.MarkAllReadClears | frontend/src/components/notifications/NotificationList.jsx:36 | marking every unread id as read leaves every record read |
| NotificationContext.UnreadCountZero | frontend/src/components/notifications/NotificationButton.jsx:23 | a list whose records are all read has no unread ones |
| NotificationContext.MarkAllReadOfList | frontend/src/components/notifications/NotificationList.jsx:36 | after mark-all-read the unread badge count is 0 |
| NotificationContext.FieldFromValue | frontend/src/contexts/NotificationContext.jsx:20 | a value accepted as a payload field is exactly that field's stored form |
| NotificationContext.RoundTrip | frontend/src/contexts/NotificationContext.jsx:20-31 | a record's stored form reads back as the same record |
| NotificationContext.ParseSerialize | frontend/src/contexts/NotificationContext.jsx:20-31 | a saved list parses back to the same list |
| NotificationContext.KeysDiffer | frontend/src/contexts/NotificationContext.jsx:18 | distinct user ids get distinct storage keys |
| NotificationContext.NotificationProvider.constructor | frontend/src/contexts/NotificationContext.jsx:12-13 | the list starts empty, loading, and with no user |
| NotificationContext.NotificationProvider.UserChanged | frontend/src/contexts/NotificationContext.jsx:16-34 | a saved list for the new user replaces the list; no saved list keeps the old one; a corrupt one changes nothing and writes nothing; otherwise loading ends and a signed-in user's key holds the list |
| NotificationContext.NotificationProvider.Save | frontend/src/contexts/NotificationContext.jsx:27-34 | with a user signed in and loading over, the user's key holds the list; otherwise nothing is written |
| NotificationContext.NotificationProvider.AddNotification | frontend/src/contexts/NotificationContext.jsx:36-48 | the new record is returned and prepended; once loaded and signed in, the user's key holds the serialised new list and every other key is unchanged; nothing is written while signed out or loading |
| NotificationContext.NotificationProvider.MarkAsRead | frontend/src/contexts/NotificationContext.jsx:50-58 | the list becomes `MarkRead` of the id; once loaded and signed in, only the user's key changes, to the serialised new list; nothing is written while signed out or loading |
| NotificationContext.NotificationProvider.RemoveNotification | frontend/src/contexts/NotificationContext.jsx:60-64 | the list becomes `RemoveById` of the id; once loaded and signed in, only the user's key changes, to the serialised new list; nothing is written while signed out or loading |
| AuthContext.LoginIdentity | frontend/src/contexts/AuthContext.jsx:31-39 | role is `admin` exactly for `admin@example.com`, with id `admin-1` and name `Admin User`; any other email gets `user-1`, `Test User`, role `user`; email and token as given |
| AuthContext.RegisterIdentity | frontend/src/contexts/AuthContext.jsx:53-60 | role `user`, email and name copied, id `user-` followed by the decimal digits of n |
| AuthContext.RegisterNeverAdmin | frontend/src/contexts/AuthContext.jsx:53-60 | a registered identity never has the admin role |
| AuthContext.FromValue | frontend/src/contexts/AuthContext.jsx:19 | a value accepted as an identity is exactly that identity's stored form |
| AuthContext.ParseSerialize | frontend/src/contexts/AuthContext.jsx:19 | a stored identity parses back to the same identity |
| AuthContext.Restored | frontend/src/contexts/AuthContext.jsx:16-22 | no saved value restores no user |
| AuthContext.RestoreAfterStore | frontend/src/contexts/AuthContext.jsx:16-22 | on the next start, the identity that login or register stored is restored |
| AuthContext.AuthProvider.constructor | frontend/src/contexts/AuthContext.jsx:16-22 | a readable saved identity becomes the current user and loading ends; a corrupt one leaves the provider loading with no user |
| AuthContext.AuthProvider.SignIn | frontend/src/contexts/AuthContext.jsx:41-43 | the identity is stored under `user` and becomes the current user |
| AuthContext.AuthProvider.Login | frontend/src/contexts/AuthContext.jsx:25-44 | returns and signs in `LoginIdentity(email)` whatever the password |
| AuthContext.AuthProvider.Register | frontend/src/contexts/AuthContext.jsx:47-65 | returns and signs in `RegisterIdentity(email, name, n)` |
| AuthContext.AuthProvider.Logout | frontend/src/contexts/AuthContext.jsx:68-72 | the `user` key is removed and no user is signed in |
| Text.IncludesIff | frontend/src/pages/Products.jsx:97-98 | `includes` holds exactly when the needle occurs at some position |
| Text.IndexOfSpec | frontend/src/pages/Products.jsx:108-110 | -1 exactly when the character is absent, otherwise its first position |
| Text.JoinSplit | frontend/src/pages/Products.jsx:110 | joining the pieces of a split with the separator gives back the string |
| Text.SplitJoin | frontend/src/pages/Products.jsx:163 | splitting separator-free pieces joined by the separator gives back the pieces |
| Text.DigitsValueOfNatToString | frontend/src/pages/Products.jsx:108-110 | the decimal digits of n read back as n |
| Text.ParseNumberOfNatToString | frontend/src/pages/Products.jsx:108-110 | `Number` of the decimal form of n is n |
| ProductsPage.ParamOr | frontend/src/pages/Products.jsx:100-103 | a missing or empty parameter reads as `all`; a non-empty one as itself |
| ProductsPage.Filter | frontend/src/pages/Products.jsx:95-115 | exactly the matching products, each as often as in the input (a sub-multiset), in no greater number |
| ProductsPage.FilterAppend | frontend/src/pages/Products.jsx:95-115 | the filter distributes over concatenation, so the kept products stay in catalogue order |
| ProductsPage.SearchIff | frontend/src/pages/Products.jsx:97-98 | a product matches the search exactly when the lower-cased term occurs in its lower-cased name or category |
| ProductsPage.EmptySearchMatches | frontend/src/pages/Products.jsx:97-98 | the empty term matches every product |
| ProductsPage.NoFilters | frontend/src/pages/Products.jsx:95-115 | with no term, no category and no price parameter the list is unchanged |
| ProductsPage.MatchesWithoutFilters | frontend/src/pages/Products.jsx:100-106 | missing category and price parameters match every product |
| ProductsPage.PriceAtLeast | frontend/src/pages/Products.jsx:107-108 | range `N+` matches exactly prices ≥ N cedis |
| ProductsPage.PriceBetween | frontend/src/pages/Products.jsx:109-112 | range `a-b` matches exactly prices between a and b cedis, both ends included |
| ProductsPage.NameCompare | frontend/src/pages/Products.jsx:120-121 | the name comparison is -1, 0 or 1 |
| ProductsPage.NameCompareAntisym | frontend/src/pages/Products.jsx:120-121 | swapping names negates the comparison |
| ProductsPage.NameCompareTrans | frontend/src/pages/Products.jsx:120-121 | the name order is transitive |
| ProductsPage.NameCompareZero | frontend/src/pages/Products.jsx:120-121 | names compare equal exactly when they are equal |
| ProductsPage.CompareAntisym | frontend/src/pages/Products.jsx:116-133 | every comparator the sort can use is antisymmetric |
| ProductsPage.CompareTrans | frontend/src/pages/Products.jsx:116-133 | every comparator the sort can use is transitive |
| ProductsPage.Insert | frontend/src/pages/Products.jsx:116 | inserting adds exactly the one product |
| ProductsPage.InsertSorted | frontend/src/pages/Products.jsx:116 | inserting into a sorted list keeps it sorted |
| ProductsPage.Sort | frontend/src/pages/Products.jsx:116-133 | the sort is a permutation of its input |
| ProductsPage.SortSorted | frontend/src/pages/Products.jsx:116-133 | the sort's result is ordered by the comparator |
| ProductsPage.SortStable | frontend/src/pages/Products.jsx:116-133 | the sort is stable: for any product e, the products comparing equal to e appear in the sorted list in the same order as in the input |
| ProductsPage.InsertEqualKeys | frontend/src/pages/Products.jsx:116-133 | inserting into a sorted list places the new product after every product that compares equal to it |
| ProductsPage.SortKeepsOrderWhenAllEqual | frontend/src/pages/Products.jsx:128-131 | `newest` and unknown keys compare everything equal, so the stable sort keeps the filtered order |
| ProductsPage.PriceOrder | frontend/src/pages/Products.jsx:122-125 | with key `price` the result is non-decreasing for `asc` and non-increasing otherwise |
| ProductsPage.PopularOrder | frontend/src/pages/Products.jsx:126-127 | with key `popular` the result is non-increasing in rating |
| ProductsPage.VisibleSpec | frontend/src/pages/Products.jsx:95-134 | the visible list is sorted and holds exactly the matching products, with their multiplicities |
| ProductsPage.ParseSort | frontend/src/pages/Products.jsx:159-161 | `popular` and `newest` select that key, descending |
| ProductsPage.ParseSortKeyDirection | frontend/src/pages/Products.jsx:162-165 | a `k-d` value selects key k and direction d, and the select (line 326) shows the same value again |
| ProductsPage.SortOptionRoundTrip | frontend/src/pages/Products.jsx:159-166 | the four `key-direction` options of lines 40-43 round-trip through the handler and the select value of line 326 |
| ProductsPage.SortKeywordRoundTrip | frontend/src/pages/Products.jsx:159-161 | the `popular` and `newest` options round-trip too, always descending |
| ProductsPage.JsSlice | frontend/src/pages/Products.jsx:139 | a slice is never longer than the list |
| ProductsPage.TotalPages | frontend/src/pages/Products.jsx:140 | `ceil(n / 8)`: the least page count whose pages hold n items |
| ProductsPage.PageContents | frontend/src/pages/Products.jsx:137-139 | page p holds the items at indices (p-1)·8 up to p·8, cut off at the end of the list |
| ProductsPage.PageEmptyIff | frontend/src/pages/Products.jsx:137-140 | a page is empty exactly when its number exceeds the page count |
| ProductsPage.PageOfIndex | frontend/src/pages/Products.jsx:137-140 | every item appears on page `i / 8 + 1`, at position `i % 8`, and that page exists |
| ProductsPage.PageWindow | frontend/src/pages/Products.jsx:545-555 | min(5, totalPages) buttons, each numbered by the source's rule |
| ProductsPage.PageWindowSpec | frontend/src/pages/Products.jsx:545-555 | for a current page within range, the buttons are consecutive, within [1, totalPages], and include the current page |
| ProductsPage.ProductsView.constructor | frontend/src/pages/Products.jsx:16-22 | no products yet, the search term from `q`, page 1, sorted by name ascending |
| ProductsPage.ProductsView.Loaded | frontend/src/pages/Products.jsx:69-83 | the product list becomes the eight mock products; nothing else changes |
| ProductsPage.ProductsView.SetSearchTerm | frontend/src/pages/Products.jsx:20 | only the search term changes |
| ProductsPage.ProductsView.HandleSearch | frontend/src/pages/Products.jsx:146-156 | `q` is set to a non-empty term or deleted for an empty one, and the page returns to 1 |
| ProductsPage.ProductsView.HandleSortChange | frontend/src/pages/Products.jsx:159-166 | the sort configuration becomes `ParseSort` of the value; nothing else changes |
| ProductsPage.ProductsView.HandlePriceRangeChange | frontend/src/pages/Products.jsx:169-177 | `all` deletes the price parameter, anything else sets it, after which the filter reads that range |
| ProductsPage.ProductsView.HandleCategoryChange | frontend/src/pages/Products.jsx:180-188 | `all` deletes the category parameter, anything else sets it, after which the filter reads that category |
| ProductsPage.ProductsView.Paginate | frontend/src/pages/Products.jsx:143 | only the current page changes |
| ProductDetailPage.DigitRun | frontend/src/pages/ProductDetail.jsx:144 | the length of the leading run of digits |
| ProductDetailPage.ParseIntParam | frontend/src/pages/ProductDetail.jsx:144 | an all-digit id reads as its decimal value; an empty id or one not starting with a digit reads as NaN (None) |
| ProductDetailPage.ParseIntParamOfId | frontend/src/pages/ProductDetail.jsx:144 | the route id written for product n reads back as n |
| ProductDetailPage.FindById | frontend/src/pages/ProductDetail.jsx:145 | a found product is in the catalogue with that id; nothing is found exactly when no product has the id |
| ProductDetailPage.Merge | frontend/src/pages/ProductDetail.jsx:146-147 | a product with details gets them merged over it, its rating included; one without is left as it was |
| ProductDetailPage.Lookup | frontend/src/pages/ProductDetail.jsx:144-164 | the error `Product not found` exactly when the id is NaN or absent; otherwise a product with that id |
| ProductDetailPage.LookupSpec | frontend/src/pages/ProductDetail.jsx:144-164 | a present id yields that catalogue product with its details merged, an absent id an error |
| ProductDetailPage.SameCategory | frontend/src/pages/ProductDetail.jsx:153-154 | exactly the catalogue products of the category other than the current id |
| ProductDetailPage.SameCategoryAppend | frontend/src/pages/ProductDetail.jsx:153-154 | the selection distributes over concatenation, so it keeps catalogue order |
| ProductDetailPage.MergeAll | frontend/src/pages/ProductDetail.jsx:156-159 | each related product is merged with its own details, position by position |
| ProductDetailPage.RelatedSpec | frontend/src/pages/ProductDetail.jsx:153-159 | at most 4 related products, all of the category and none the current id, the first ones of the selection in order, each merged |
| ProductDetailPage.AddToCartCallAsWritten | frontend/src/pages/ProductDetail.jsx:175-176 | the call passes the quantity inside the product object and leaves the second argument at its default 1 |
| ProductDetailPage.AsWrittenAddsOne | frontend/src/pages/ProductDetail.jsx:175-176 | as written, the button adds exactly 1 whatever the stepper shows |
| ProductDetailPage.AsWrittenStepperAtThree | frontend/src/pages/ProductDetail.jsx:175-176 | with the stepper at 3 and an empty cart, as written the cart ends with one unit |
| ProductDetailPage.AddToCartCall | frontend/src/pages/ProductDetail.jsx:175-176 | the corrected call passes the product and the chosen quantity as the second argument |
| ProductDetailPage.AddsChosenQuantity | frontend/src/pages/ProductDetail.jsx:175-176 | the corrected call adds exactly the chosen quantity |
| ProductDetailPage.ProductDetailView.constructor | frontend/src/pages/ProductDetail.jsx:144-165 | a found product is shown with its related products; otherwise the error is set and nothing is shown; the quantity starts at 1 |
| ProductDetailPage.ProductDetailView.Decrement | frontend/src/pages/ProductDetail.jsx:374 | the quantity drops by one but never below 1 |
| ProductDetailPage.ProductDetailView.Increment | frontend/src/pages/ProductDetail.jsx:395 | the quantity rises by one |
| ProductDetailPage.ProductDetailView.AddToCart | frontend/src/pages/ProductDetail.jsx:175-176 | (corrected) the cart receives the product with the stepper's quantity, and its quantity rises by exactly that |
| Checkout.InvalidFields | frontend/src/pages/Checkout.jsx:8-52 | exactly the fields the schema rejects |
| Checkout.FormValidIff | frontend/src/pages/Checkout.jsx:8-52 | valid exactly when: the delivery method is `delivery` or `pickup`; names and a passing email are given; for delivery only, the four address fields are given; card, expiry and CVC match their patterns |
| Checkout.PickupDropsAddress | frontend/src/pages/Checkout.jsx:16-35 | switching to pickup removes exactly the address-field (and delivery-method) errors, no others |
| Checkout.ExpiryMonth | frontend/src/pages/Checkout.jsx:41-47 | an expiry is valid exactly when it is two digits, `/`, two digits, with the month between 1 and 12 |
| Checkout.SpacedCardRejected | frontend/src/pages/Checkout.jsx:37-40 | the placeholder form `4242 4242 4242 4242` is rejected |
| Checkout.DefaultForm | frontend/src/pages/Checkout.jsx:66-71 | the form starts with delivery selected and the signed-in user's email, or an empty one |
| Checkout.ViewOf | frontend/src/pages/Checkout.jsx:103-124 | the empty-cart view exactly when the cart is empty and no order is placed; the confirmation exactly when one is |
| Checkout.CheckoutView.constructor | frontend/src/pages/Checkout.jsx:57-59 | no order placed, not processing, no error |
| Checkout.CheckoutView.Submit | frontend/src/pages/Checkout.jsx:76-101 | submission happens exactly for a valid form; it empties the cart, erases `cart` and shows the confirmation; an invalid form changes nothing |
| RegisterPage.CountMetBounds | frontend/src/pages/Register.jsx:57-64 | the score is at most the number of criteria, equal to it exactly when all hold, and 0 exactly when none hold |
| RegisterPage.EmptyMeetsNone | frontend/src/pages/Register.jsx:55 | the empty password meets no criterion |
| RegisterPage.CountMetCriteria | frontend/src/pages/Register.jsx:57-64 | the score is one point each for length ≥ 8, a digit, one of `!@#$%^&*`, and both an ASCII lower- and upper-case letter |
| RegisterPage.Label | frontend/src/pages/Register.jsx:66-69 | 0 Very Weak, 1 Weak, 2 Fair, 3 Good, 4 or more Strong |
| RegisterPage.CalculatePasswordStrength | frontend/src/pages/Register.jsx:51-72 | the score is the number of criteria met, between 0 and 4, with its label; the empty password scores 0, Very Weak |
| RegisterPage.StrongExample | frontend/src/pages/Register.jsx:57-64 | `Abcdef1!` meets all four criteria |
| RegisterPage.InvalidFields | frontend/src/pages/Register.jsx:10-28 | exactly the fields the schema rejects |
| RegisterPage.FormValidIff | frontend/src/pages/Register.jsx:10-28 | valid exactly when: a name and a passing email are given; the password has at least 6 characters and the confirmation equals it; the phone is exactly 10 digits |
| RegisterPage.RegisterView.constructor | frontend/src/pages/Register.jsx:31-36 | terms not accepted, no error, not loading, empty strength |
| RegisterPage.RegisterView.SetAcceptedTerms | frontend/src/pages/Register.jsx:36 | only the terms flag changes |
| RegisterPage.RegisterView.PasswordChanged | frontend/src/pages/Register.jsx:49-76 | the meter shows the new password's score and label |
| RegisterPage.RegisterView.Submit | frontend/src/pages/Register.jsx:81-98 | signs up exactly for a valid form with the terms accepted; valid without terms sets the terms error and does not sign up; an invalid form changes nothing (session, storage, error, loading); the strength score and label and the terms flag never change |
| Header.IsActive | frontend/src/components/layout/Header.jsx:11-14 | equal paths are active; `/` only on `/`; any other path exactly when it prefixes the pathname; otherwise inactive |
| Header.RawPrefix | frontend/src/components/layout/Header.jsx:13 | the prefix test is raw: `/cart` is active on `/cartography` |
| Header.HomeOnlyOnHome | frontend/src/components/layout/Header.jsx:12-13 | `/` is inactive on every other pathname |
| ProductSchema.TrimStart | backend/src/models/Product.js:8 | drops exactly the leading white space (ECMAScript WhiteSpace and LineTerminator code points) |
| ProductSchema.TrimEnd | backend/src/models/Product.js:8 | drops exactly the trailing white space |
| ProductSchema.Trim | backend/src/models/Product.js:8 | the trimmed name neither starts nor ends with white space |
| ProductSchema.TrimIdempotent | backend/src/models/Product.js:8 | trimming twice equals trimming once |
| ProductSchema.TrimAllSpace | backend/src/models/Product.js:7-8 | an all-blank name trims to the empty string |
| ProductSchema.ApplyDefaults | backend/src/models/Product.js:43-56 | stock, ratings and review count are kept when given and become 0 when missing; images and reviews are kept when given and become empty when missing; a given name is trimmed (line 8) and a missing one stays missing; price, description, category and user pass through |
| ProductSchema.InvalidFields | backend/src/models/Product.js:5-82 | exactly the fields the schema rejects after defaults |
| ProductSchema.NameRule | backend/src/models/Product.js:5-10 | the name passes exactly when it is present with 1 to 100 characters after trimming |
| ProductSchema.BlankNameRejected | backend/src/models/Product.js:5-10 | a blank name is rejected |
| ProductSchema.StockAndPrice | backend/src/models/Product.js:11-48 | a missing stock defaults and passes; a negative stock, or a missing or negative price, is rejected |
| ProductSchema.CategoryCaseSensitive | backend/src/models/Product.js:26-42 | `Lighting` is a category and `lighting` is not |
| ProductSchema.ImagesAndReviews | backend/src/models/Product.js:20-77 | no images passes; a review missing user, name, rating or comment rejects the product |
| ProductSchema.ValidIff | backend/src/models/Product.js:5-82 | a product is valid exactly when every field passes its rule after defaults |
| ProductSchema.ExampleValid | backend/src/models/Product.js:5-82 | a complete lighting product passes |

## Left out

- **Rendering and routing.** Rendering, styling, icons, navigation (`navigate(...)`) and the pure-UI components are left out. So are the routes and guards, the admin product page (network, file and dialog I/O), and the backend routes (HTTP plumbing over the database with no logic of their own).
- **Timing.** `setTimeout` delays, the `async`/`await` of the mocked calls, React effect scheduling and stale closures are not modelled. Each handler runs to completion, and the effects that follow a state change run right after it.
- **Nondeterministic and foreign inputs.** `Date.now()`, `new Date().toISOString()` and `Math.random()` are parameters. Ids built from `Date.now()` may collide, and no lemma assumes they are unique. yup's `email()` test is an opaque `isEmail` parameter.
- **Numbers.** Floating-point prices and `toFixed` display are out: prices are integer pesewas. `Number(...)` and `parseInt(..., 10)` are modelled for unsigned decimal digits. Signs, decimals, exponents and surrounding white space are not.
- **Notification storage key.** `frontend/src/contexts/NotificationContext.jsx:18` builds the storage key from `currentUser.uid`. Identities only carry `id` (`frontend/src/contexts/AuthContext.jsx:34`), so in the running code every user shares `notifications_undefined`. The model takes the user id as a parameter and does not reproduce that defect.
- **Page buttons.** The page-number buttons call an undefined `handlePageChange` (`frontend/src/pages/Products.jsx:501, 508, 529, 560, 569`). The model covers the numbers the window shows (`PageWindow`) and the `paginate` handler, not the click.
- **Password reset.** `forgotPassword` (`frontend/src/contexts/AuthContext.jsx:75-80`) is a mocked delay returning success. It reads and changes no state, so it has no member.
- ProductsPage.NameCompare: `localeCompare` is modelled as code-point lexicographic order, an antisymmetric and transitive total order. Locale collation is not modelled.
- ProductsPage.Compare: the `newest` ordering compares `createdAt` dates. The catalogue products have none, so every comparison is 0 and the model compares them as equal.
- Text.LowerStr: case folding covers ASCII letters only. `toLowerCase` on other scripts is not modelled, and string lengths count characters rather than UTF-16 units.
- RegisterPage.CountMetCriteria: the mixed-case criterion uses lookaheads `(?=.*[a-z])(?=.*[A-Z])`. Their `.` stops at line terminators; the model checks for a lower- and an upper-case ASCII letter anywhere in the password, so it differs only for passwords containing line breaks.
- **Cart line fields.** Cart lines keep the product's id, name, price, image, category and rating. Other fields spread in from the product-page details are dropped, because no cart operation reads them.
- **Product record types.** In the product record, the user and review-user references (`ObjectId`) are strings, numbers are integers, and Mongoose's type casting is not modelled.
- Catalog.ParseProducts, WishlistContext.WishlistProvider.constructor, AuthContext.Restored, NotificationContext.ParseList and CartContext.LoadedItems: the code loads whatever `JSON.parse` returns, so valid JSON of the wrong shape (for example `{}` or a list of numbers) becomes the state as it is and fails later. The model's stored values are typed records, so such a text is treated like unparsable text: the loader takes the branch the code takes when `JSON.parse` throws. Only well-formed JSON of the wrong shape behaves differently from the code.
- **Checkout errors.** The `catch` branch of the checkout submit is unreachable: the mocked call cannot fail. The model has no error path there.
- **Notification helpers.** The notification button's unread badge and the list's mark-all-read are modelled as helpers (`UnreadCount`, `MarkAllRead`) over the notification list. Their components are not.
- CartContext.CartProvider.GetCartTotal and CartContext.CartProvider.GetCartCount read the folds `Total` and `Count`. Their properties are stated on those folds (`TotalAppend`, `CountAppend`, `AddTotal`, `AddCount`, `RemoveCount`, `CountAtLeastLines`).

## Findings

| source | as written | input that shows it | evidently intended | confidence | as-written member | corrected member |
|---|---|---|---|---|---|---|
| frontend/src/pages/ProductDetail.jsx:175-176 | `addToCart({ ...product, quantity })` puts the stepper's quantity inside the product object. `addToCart(product, quantity = 1)` then overrides it with its default 1 (`frontend/src/contexts/CartContext.jsx:83-88`). | stepper at 3, empty cart: the cart ends with one unit of the product | `addToCart(product, quantity)`, so the cart receives the chosen quantity | not executed | ProductDetailPage.AddToCartCallAsWritten, ProductDetailPage.AsWrittenAddsOne, ProductDetailPage.AsWrittenStepperAtThree | ProductDetailPage.AddToCartCall, ProductDetailPage.AddsChosenQuantity, ProductDetailPage.ProductDetailView.AddToCart |
