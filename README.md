# Agromarket storefront: a Dafny model of its domain logic

Agromarket is a browser storefront for farm produce. Sellers (role `Vendedor`) add
products and edit or delete them. Buyers (role `Comprador`) search the catalog, rate and
comment on products, fill a cart and check out. There is no server: the catalog, the
comments, the cart, the order history and the logged-in user all live in browser local
storage, and every rule sits inside a React event handler.

This project models those handlers as sequential logic and proves what they do:

- `js.dfy` (`Js`): JavaScript number fields as `Num(real) | NaN | Null`. `+` and `*`
  make NaN absorbing and count `null` as 0. `Number(x) || 0` and the JSON round trip
  (NaN is written as `null`) are modelled too. Amounts are exact reals.
- `text.dfy` (`Text`): `toLowerCase`, `includes`, the regular expressions `^\d*$` and
  `^\d+$`, and `replace(/[^0-9]/g, '')`.
- `seqs.dfy` (`Seqs`): `Array.prototype.filter`, and the order-preserving subsequence
  relation used to state that a filter keeps the original order.
- `domain.dfy` (`Domain`): users, products, comments, cart lines and orders. It also
  gives each record and collection as it reads back from storage after
  `JSON.stringify`.
- `storage.dfy` (`Storage`): local storage as a class with one field per key. `None` means
  the key is missing, and a missing collection reads as empty. Every write stores the
  JSON round trip of what was written, so a NaN price or quantity reads back as `null`.
  Arithmetic then counts it as 0. Local storage holds only strings, so the invariant
  `Valid()` states that each stored collection already equals its own round trip. A
  fresh profile has it, every writer requires it and keeps it, and the pages that read
  storage rely on it.
- `authcontext.dfy` (`AuthContext`): the identity provider as a class. Its `user` is
  mirrored into the storage key `user`, and `updateUserInfo` is a partial-record merge.
- One module per page or component: `HomePage`, `Checkout`, `CartPage`, `OrderPage`,
  `MyProductPage`, `Login`, `SignUp`, `ProfilePage`, `Navbar`. Pure computations
  (`filter`, `map`, `reduce`, validation) are functions with lemmas. Component state is
  a class whose methods state the new state in terms of those functions.

Inputs that come from outside are parameters:
- the clock (`Date.now()`, `new Date().toISOString()`);
- the object URL of the chosen image;
- the result of the e-mail send;
- the cart held by the cart context.

Behaviour of the code that a reader may not expect:

- Checkout does not reject an empty cart and does not clear the cart afterwards.
- The order is recorded only if the e-mail send succeeds. A failed send records nothing;
  it is not a warning next to a committed order.
- A comment without a numeric rating adds 0 to the rating sum but still counts in the
  divisor.
- Repeated adds of the same product append separate cart lines; nothing is merged.
- The checkout total does not coerce malformed numbers (one NaN makes the whole total
  NaN). The cart page's total does coerce them, to 0. Once stored, a NaN becomes `null`,
  which both count as 0. An empty quantity box therefore adds 0 to the navbar's badge;
  it does not hide the badge.
- A product's owner is the creator's name. When no user is logged in it is `'Anónimo'`,
  but a logged-in user with an empty name gives an empty owner. A comment's author
  instead uses `user?.name || 'Anónimo'`, so an empty name also becomes `'Anónimo'`.
- User ids are untyped: the two demonstration accounts use the strings `'1'` and `'2'`,
  and sign-up uses a numeric timestamp. The model keeps these as distinct `UserId` kinds,
  as strict equality does.

## Model

| member | source | states |
|---|---|---|
| `Js.Add` | agromarket/src/pages/checkoutPage.tsx:22 | the sum is NaN exactly when an operand is, is never `null`, and otherwise adds the operands with `null` as 0 |
| `Js.Mul` | agromarket/src/pages/checkoutPage.tsx:22 | the product is NaN exactly when an operand is, is never `null`, and otherwise multiplies the operands with `null` as 0 |
| `Js.OrZero` | agromarket/src/pages/cartPage.tsx:15-16 | `Number(x) \|\| 0` is 0 for NaN and `null` and the value itself otherwise |
| `Js.Stored` | agromarket/src/pages/HomePage.tsx:75 | a number field after `JSON.stringify` and `JSON.parse` is never NaN: NaN comes back as `null`, anything else unchanged |
| `Js.StoredRoundTrip` | agromarket/src/pages/HomePage.tsx:73-75 | rewriting a value read back changes nothing, and its coerced value is unchanged |
| `Domain.StoredProduct` | agromarket/src/pages/HomePage.tsx:110 | a stored product differs from the product only in its price, which is the stored price |
| `Domain.StoredLine` | agromarket/src/pages/HomePage.tsx:75 | a stored cart line holds the stored product and the stored quantity, and no NaN |
| `Domain.StoredOrderLine` | agromarket/src/pages/checkoutPage.tsx:91 | a stored order line keeps its name and stores quantity, price and line total |
| `Domain.StoredOrder` | agromarket/src/pages/checkoutPage.tsx:91 | a stored order differs only in its total and its lines, each stored, same count and order |
| `Domain.StoredCatalog` | agromarket/src/pages/HomePage.tsx:110 | the stored catalog has the same length, each product stored in place |
| `Domain.StoredCart` | agromarket/src/pages/HomePage.tsx:75 | the stored cart has the same length, each line stored in place |
| `Domain.StoredOrders` | agromarket/src/pages/checkoutPage.tsx:91 | the stored history has the same length, each order stored in place |
| `Domain.StoredRoundTrips` | agromarket/src/pages/HomePage.tsx:73-75 | reading a stored collection and writing it back unchanged changes nothing |
| `Domain.StoredCatalogAppend` | agromarket/src/pages/MyproductPage.tsx:65-79 | parse, push, stringify: the earlier products are stored as before and the new one last |
| `Domain.StoredCartAppend` | agromarket/src/pages/HomePage.tsx:73-75 | parse, append, stringify: the earlier lines are stored as before and the new line last |
| `Domain.StoredOrdersAppend` | agromarket/src/pages/checkoutPage.tsx:89-91 | parse, push, stringify: the earlier orders are stored as before and the new order last |
| `Text.LowerChar` | agromarket/src/pages/HomePage.tsx:35 | ASCII and Latin-1 capitals (not U+00D7) map to the character 32 places on, their small letter; every other character is unchanged |
| `Text.ToLower` | agromarket/src/pages/HomePage.tsx:35 | `toLowerCase` keeps the length and lowers each character in place |
| `Text.ToLowerIdempotent` | agromarket/src/pages/HomePage.tsx:35 | lower-casing twice is lower-casing once |
| `Text.Contains` | agromarket/src/pages/HomePage.tsx:35 | `includes` can hold only when the query is no longer than the text, and holds when the text starts with it |
| `Text.ContainsAt` | agromarket/src/pages/HomePage.tsx:35 | `includes` holds if and only if the query occurs at some position |
| `Text.ContainsEmpty` | agromarket/src/pages/HomePage.tsx:33-37 | every string includes the empty query |
| `Text.StripNonDigits` | agromarket/src/pages/SignUp.tsx:19 | the sanitised value holds only digits, is no longer than the input, and keeps every digit of it |
| `Text.AllDigits` | agromarket/src/pages/checkoutPage.tsx:30 | `^\d*$`, matched as a digit followed by `\d*` or nothing, holds exactly when every character is a digit |
| `Text.DigitsOnly` | agromarket/src/pages/SignUp.tsx:32 | `^\d+$`, matched as a digit followed by `\d*`, holds exactly when `^\d*$` does and the text is not empty |
| `Text.StripAllDigits` | agromarket/src/pages/SignUp.tsx:19 | an all-digit value is left unchanged |
| `Text.StripIdempotent` | agromarket/src/pages/SignUp.tsx:25 | sanitising twice is sanitising once |
| `Text.StripKeepsOrder` | agromarket/src/pages/SignUp.tsx:19 | the kept digits are a subsequence of the input, in order |
| `Text.StripAppend` | agromarket/src/pages/profilePage.tsx:22 | sanitising a concatenation sanitises each part |
| `Text.StripPassesCheck` | agromarket/src/pages/SignUp.tsx:32-40 | a sanitised value passes `^\d+$` if and only if the raw input held a digit |
| `AuthContext.Merge` | agromarket/src/context/authcontext.tsx:45 | every key present in the update overwrites, every absent key is preserved |
| `AuthContext.MergeEmpty` | agromarket/src/context/authcontext.tsx:45 | an empty update leaves the user unchanged |
| `AuthContext.MergeTwice` | agromarket/src/context/authcontext.tsx:45 | two updates in a row equal one combined update in which the later keys win |
| `AuthContext.MergeIdempotent` | agromarket/src/context/authcontext.tsx:45 | repeating an update changes nothing more |
| `AuthContext.AuthProvider.constructor` | agromarket/src/context/authcontext.tsx:23-30 | after loading, the user is the stored user if present, otherwise nobody; stored copy and user agree, and storage keeps holding round trips only |
| `AuthContext.AuthProvider.Login` | agromarket/src/context/authcontext.tsx:32-35 | the user and the stored copy both become the given user |
| `AuthContext.AuthProvider.Logout` | agromarket/src/context/authcontext.tsx:37-40 | the user is nobody and the stored copy is removed |
| `AuthContext.AuthProvider.UpdateUserInfo` | agromarket/src/context/authcontext.tsx:43-49 | logged out: nothing changes; logged in: the user becomes the merge; the stored copy equals the user afterwards in both cases |
| `Login.Authenticate` | agromarket/src/pages/Login.tsx:16-39 | the buyer pair gives the buyer account, the seller pair the seller account, any other pair nothing |
| `Login.BuyerLogsIn` | agromarket/src/pages/Login.tsx:16-25 | the buyer pair logs in user `'1'` with role Comprador |
| `Login.SellerLogsIn` | agromarket/src/pages/Login.tsx:26-35 | the seller pair logs in user `'2'` with role Vendedor |
| `Login.WrongPasswordRejected` | agromarket/src/pages/Login.tsx:36-39 | a known e-mail with another account's or any wrong password is rejected |
| `Login.HandleSubmit` | agromarket/src/pages/Login.tsx:12-41 | a matching pair calls `login` with its account; otherwise the session and storage are untouched; the stored copy equals the user afterwards |
| `SignUp.Submit` | agromarket/src/pages/SignUp.tsx:28-43 | rejected exactly when phone or DUI fails `^\d+$`, phone checked first; otherwise the user has exactly the entered fields and the timestamp id |
| `SignUp.SanitisedFieldsAccepted` | agromarket/src/pages/SignUp.tsx:16-40 | fields filled through the sanitisers pass the checks whenever each raw input held a digit |
| `SignUp.SignUpView.constructor` | agromarket/src/pages/SignUp.tsx:6-11 | all fields start empty and the role starts as Comprador |
| `SignUp.SignUpView.SetName` | agromarket/src/pages/SignUp.tsx:57 | the name takes the typed value |
| `SignUp.SignUpView.SetEmail` | agromarket/src/pages/SignUp.tsx:67 | the e-mail takes the typed value |
| `SignUp.SignUpView.SetAddress` | agromarket/src/pages/SignUp.tsx:97 | the address takes the typed value |
| `SignUp.SignUpView.SetRole` | agromarket/src/pages/SignUp.tsx:106 | the role takes the selected value |
| `SignUp.SignUpView.HandlePhoneChange` | agromarket/src/pages/SignUp.tsx:16-20 | the phone becomes the digits of the typed value |
| `SignUp.SignUpView.HandleDuiChange` | agromarket/src/pages/SignUp.tsx:22-26 | the DUI becomes the digits of the typed value |
| `SignUp.SignUpView.HandleSubmit` | agromarket/src/pages/SignUp.tsx:28-45 | on success `login` receives the built user; on rejection the session is untouched; the stored copy equals the user afterwards |
| `ProfilePage.InitialForm` | agromarket/src/pages/profilePage.tsx:9-14 | the form starts from the user's four fields, or all empty without a user |
| `ProfilePage.ApplyChange` | agromarket/src/pages/profilePage.tsx:18-33 | the named field takes the value (the phone only its digits); every other field is unchanged |
| `ProfilePage.ChangeKeepsPhoneDigits` | agromarket/src/pages/profilePage.tsx:21-26 | an all-digit phone stays all digits after any change |
| `ProfilePage.PatchOf` | agromarket/src/pages/profilePage.tsx:44 | the update has exactly the keys name, email, phone and address, with the form's values |
| `ProfilePage.Submit` | agromarket/src/pages/profilePage.tsx:39-44 | accepted if and only if the phone passes `^\d+$`, and then the update is the four form fields |
| `ProfilePage.UnchangedFormKeepsUser` | agromarket/src/pages/profilePage.tsx:9-44 | submitting a user's untouched form leaves that user unchanged |
| `ProfilePage.ProfileView.constructor` | agromarket/src/pages/profilePage.tsx:9-14 | the form is initialised from the current user |
| `ProfilePage.ProfileView.HandleChange` | agromarket/src/pages/profilePage.tsx:18-33 | the form becomes the changed form |
| `ProfilePage.ProfileView.HandleSubmit` | agromarket/src/pages/profilePage.tsx:35-50 | a bad phone leaves the session untouched; otherwise `updateUserInfo` is applied once with the four fields; the stored copy equals the user afterwards |
| `HomePage.Search` | agromarket/src/pages/HomePage.tsx:30-46 | the results are exactly the products whose lower-cased name includes the lower-cased query and, when a unit is chosen, whose unit equals it ignoring case |
| `HomePage.ContainsEmptyAll` | agromarket/src/pages/HomePage.tsx:33-37 | every product name includes the empty query |
| `HomePage.SearchWithoutFilters` | agromarket/src/pages/HomePage.tsx:30-46 | with both filters empty the full catalog is shown |
| `HomePage.EmptyQueryMatchesAll` | agromarket/src/pages/HomePage.tsx:33-37 | applying the name filter with an empty query would keep every product, so skipping it changes nothing |
| `HomePage.SearchIsConjunction` | agromarket/src/pages/HomePage.tsx:30-46 | with a unit chosen, the search is one filter by the conjunction of both conditions |
| `HomePage.SearchKeepsOrder` | agromarket/src/pages/HomePage.tsx:30-46 | the results are an order-preserving subsequence of the catalog |
| `HomePage.SearchCaseInsensitive` | agromarket/src/pages/HomePage.tsx:30-46 | lower-casing the query or the unit before searching changes no result: the search ignores case |
| `HomePage.AverageRating` | agromarket/src/pages/HomePage.tsx:48-59 | 0 with no comment for the product; otherwise average times the number of matching comments equals the sum of numeric ratings |
| `HomePage.RatingSum` | agromarket/src/pages/HomePage.tsx:53-55 | the left fold of the numeric ratings from 0 (no contract of its own; `UnratedSumZero`, `RatingSumBounds` and `UnratedCommentCounts` state its properties) |
| `HomePage.UnratedSumZero` | agromarket/src/pages/HomePage.tsx:53-55 | comments that carry no numeric rating sum to 0 |
| `HomePage.NoCommentsAverageZero` | agromarket/src/pages/HomePage.tsx:49-52 | a product nobody commented on averages 0 |
| `HomePage.CommentsForAppend` | agromarket/src/pages/HomePage.tsx:49-51 | a new comment joins only its own product's comments, at the end |
| `HomePage.OtherCommentKeepsAverage` | agromarket/src/pages/HomePage.tsx:48-59 | a comment on another product does not change this product's average |
| `HomePage.UnratedCommentCounts` | agromarket/src/pages/HomePage.tsx:53-58 | a comment without a numeric rating adds 0 to the sum and 1 to the divisor |
| `HomePage.RatingSumBounds` | agromarket/src/pages/HomePage.tsx:53-55 | with each rating worth between 0 and 5, the sum lies between 0 and 5 per comment |
| `HomePage.FilterKeepsBounds` | agromarket/src/pages/HomePage.tsx:49-51 | a product's comments inherit the bound of all comments |
| `HomePage.AverageWithinStars` | agromarket/src/pages/HomePage.tsx:48-59 | with star ratings between 0 and 5, the average lies between 0 and 5 |
| `HomePage.EditPrice` | agromarket/src/pages/HomePage.tsx:106-108 | same length; only the price of products with the id may change, and it becomes the new price; other products are identical |
| `HomePage.EditUnknownId` | agromarket/src/pages/HomePage.tsx:106-108 | an id not in the catalog leaves it identical |
| `HomePage.EditLastWins` | agromarket/src/pages/HomePage.tsx:105-111 | two edits of the same id equal the second edit alone |
| `HomePage.DeleteProduct` | agromarket/src/pages/HomePage.tsx:114 | no product with the id remains, every other product remains |
| `HomePage.DeleteUnknownId` | agromarket/src/pages/HomePage.tsx:114 | deleting an unknown id is a no-op |
| `HomePage.DeleteIdempotent` | agromarket/src/pages/HomePage.tsx:114 | deleting twice equals deleting once |
| `HomePage.DeleteKeepsOrder` | agromarket/src/pages/HomePage.tsx:114 | the remaining products keep their order |
| `HomePage.DeletedNotFound` | agromarket/src/pages/HomePage.tsx:113-121 | after a delete, no search finds the deleted id |
| `HomePage.CommentAuthor` | agromarket/src/pages/HomePage.tsx:81 | the user's name when it is non-empty, `'Anónimo'` with no user or an empty name |
| `HomePage.HomeView.constructor` | agromarket/src/pages/HomePage.tsx:21-28 | products and comments are loaded from storage (empty when missing) and all products are shown |
| `HomePage.HomeView.SetSearchByName` | agromarket/src/pages/HomePage.tsx:30-46 | the query changes and the shown list is the search over the catalog |
| `HomePage.HomeView.SetFilterByUnit` | agromarket/src/pages/HomePage.tsx:30-46 | the unit changes and the shown list is the search over the catalog |
| `HomePage.HomeView.OpenProductModal` | agromarket/src/pages/HomePage.tsx:63-66 | the product is selected and the quantity reset to 1 |
| `HomePage.HomeView.CloseProductModal` | agromarket/src/pages/HomePage.tsx:68-70 | no product is selected |
| `HomePage.HomeView.SetSelectedPrice` | agromarket/src/pages/HomePage.tsx:251-254 | only the open product's price changes; the catalog is untouched until the edit is saved |
| `HomePage.HomeView.SetSelectedRating` | agromarket/src/pages/HomePage.tsx:98-103 | only the open product's rating changes, to the picked star |
| `HomePage.HomeView.SetQuantity` | agromarket/src/pages/HomePage.tsx:277 | the quantity takes the parsed value, NaN included |
| `HomePage.HomeView.SetCurrentComment` | agromarket/src/pages/HomePage.tsx:306 | the comment text takes the typed value |
| `HomePage.HomeView.HandleAddToCart` | agromarket/src/pages/HomePage.tsx:72-77 | the stored cart becomes the JSON round trip of the old cart plus one line, the selected product with its modal price and the quantity; the stored cart equals the old cart, unchanged, followed by the new line stored with a NaN quantity as `null`; storage remains valid |
| `HomePage.HomeView.HandleAddComment` | agromarket/src/pages/HomePage.tsx:78-97 | one comment is appended to the page's comments and stored; its author follows `CommentAuthor`; the box is cleared |
| `HomePage.HomeView.SubmitComment` | agromarket/src/pages/HomePage.tsx:320-321 | comments on the open product with its picked rating, as `HandleAddComment` states |
| `HomePage.HomeView.HandleEditProduct` | agromarket/src/pages/HomePage.tsx:105-111 | the page's products become the edited catalog, a NaN price kept; storage receives its JSON round trip, the NaN as `null`; storage remains valid; the shown list follows |
| `HomePage.HomeView.SaveSelectedPrice` | agromarket/src/pages/HomePage.tsx:259-261 | saves the open product's price into the catalog, as `HandleEditProduct` states |
| `HomePage.HomeView.HandleDeleteProduct` | agromarket/src/pages/HomePage.tsx:113-121 | the page's products become the catalog without the id and storage its JSON round trip; storage remains valid; the shown list follows |
| `Checkout.Total` | agromarket/src/pages/checkoutPage.tsx:22 | the total is a number exactly when no price or quantity is NaN (`null` counts as 0), and is never `null` |
| `Checkout.TotalEmpty` | agromarket/src/pages/checkoutPage.tsx:22 | an empty cart totals 0 |
| `Checkout.TotalExample` | agromarket/src/pages/checkoutPage.tsx:22 | three units at 2 plus one at 5 total 11 |
| `Checkout.ApplyChange` | agromarket/src/pages/checkoutPage.tsx:25-37 | a value failing `^\d*$` for phone, card number or CVC leaves the form unchanged; otherwise only the named field changes, to the value |
| `Checkout.ChangeKeepsGatedDigits` | agromarket/src/pages/checkoutPage.tsx:28-31 | the gated fields stay all digits under any change |
| `Checkout.EmailParamsFor` | agromarket/src/pages/checkoutPage.tsx:54-62 | name, e-mail, phone and address are sent; card fields only when paying by `'card'`, otherwise empty strings |
| `Checkout.OrderLines` | agromarket/src/pages/checkoutPage.tsx:80-85 | one line per cart line, in cart order, with name, quantity, price and `price * quantity` |
| `Checkout.BuildOrder` | agromarket/src/pages/checkoutPage.tsx:74-87 | the order carries the user's id and name, the form's address and phone, the lines, the cart total and the date; its total is a number exactly when no line holds NaN |
| `Checkout.OrderTotalIsSumOfLines` | agromarket/src/pages/checkoutPage.tsx:74-87 | the order's total equals the sum of its line totals |
| `Checkout.CheckoutView.constructor` | agromarket/src/pages/checkoutPage.tsx:11-20 | empty form, card payment, not processing |
| `Checkout.CheckoutView.HandleChange` | agromarket/src/pages/checkoutPage.tsx:25-37 | the form becomes the changed form |
| `Checkout.CheckoutView.HandlePaymentChange` | agromarket/src/pages/checkoutPage.tsx:39-41 | the payment method takes the selected value |
| `Checkout.CheckoutView.HandleSubmit` | agromarket/src/pages/checkoutPage.tsx:43-101 | no user: nothing changes; failed send: no order is stored; sent: the built order is appended and the history written back as JSON, the stored history equals the old history, unchanged, followed by the new order stored with NaN as `null`; storage remains valid |
| `CartPage.Contribution` | agromarket/src/pages/cartPage.tsx:15-17 | a line whose price or quantity is not a number (NaN or `null`) contributes 0; a line of numbers contributes `price * quantity` |
| `CartPage.Total` | agromarket/src/pages/cartPage.tsx:14-18 | a cart without a line of numbers totals 0 |
| `CartPage.TotalEmpty` | agromarket/src/pages/cartPage.tsx:14-18 | an empty cart totals 0 |
| `CartPage.TotalAppend` | agromarket/src/pages/cartPage.tsx:14-18 | appending a line adds its contribution |
| `CartPage.TotalConcat` | agromarket/src/pages/cartPage.tsx:14-18 | the total of two carts joined is the sum of their totals |
| `CartPage.MalformedLinesIgnored` | agromarket/src/pages/cartPage.tsx:14-18 | the total equals the total of the well-formed lines alone |
| `CartPage.TotalNonNegative` | agromarket/src/pages/cartPage.tsx:14-18 | non-negative prices and quantities give a non-negative total |
| `CartPage.AgreesWithCheckout` | agromarket/src/pages/cartPage.tsx:14-18 | on a cart without NaN, such as any cart read back from storage, the coercing total and the checkout total agree |
| `CartPage.CartView.constructor` | agromarket/src/pages/cartPage.tsx:7-26 | after mounting, the local cart is the stored cart, and no line of it holds NaN |
| `CartPage.CartView.SyncCart` | agromarket/src/pages/cartPage.tsx:21-24 | the local cart becomes the stored cart, or empty when the key is missing; no line of it holds NaN, so `AgreesWithCheckout` applies |
| `OrderPage.UserOrders` | agromarket/src/pages/OrderPage.tsx:10 | exactly the stored orders whose `user_id` is the user's id |
| `OrderPage.UserOrdersKeepOrder` | agromarket/src/pages/OrderPage.tsx:10 | the listing is an order-preserving subsequence of the stored orders |
| `OrderPage.NewOrderListedLast` | agromarket/src/pages/OrderPage.tsx:7-13 | an order appended for a user becomes that user's last listed order; other listings are unchanged |
| `OrderPage.LineAmount` | agromarket/src/pages/OrderPage.tsx:33 | the shown `price * quantity` is NaN exactly when a field is, and otherwise the product with `null` as 0, so always a number on a stored line |
| `OrderPage.ShownAmountIsRecordedTotal` | agromarket/src/pages/OrderPage.tsx:30-33 | for a checkout-built order read back from storage, each shown amount is a number equal to the recorded line total; a total stored as `null` shows as 0 |
| `OrderPage.StoredAmountsAreNumbers` | agromarket/src/pages/OrderPage.tsx:9-33 | every amount shown for an order read back from storage is a number |
| `OrderPage.OrdersView.constructor` | agromarket/src/pages/OrderPage.tsx:5 | the list starts empty |
| `OrderPage.OrdersView.LoadOrders` | agromarket/src/pages/OrderPage.tsx:7-13 | with a user the list becomes that user's orders; without one it stays as it was |
| `OrderPage.MissingKeyShowsNothing` | agromarket/src/pages/OrderPage.tsx:9 | with no orders key the listing is empty |
| `MyProductPage.OwnerName` | agromarket/src/pages/MyproductPage.tsx:74 | the logged-in user's name, or `'Anónimo'` with nobody logged in |
| `MyProductPage.Accepts` | agromarket/src/pages/MyproductPage.tsx:60 | the submit check passes exactly when name and description are non-empty, the price is positive and an image was chosen |
| `MyProductPage.NewProduct` | agromarket/src/pages/MyproductPage.tsx:67-75 | the product copies name, description, price and unit from the form; id is the timestamp; image the object URL; owner per `OwnerName`; no rating |
| `MyProductPage.AcceptedPriceIsPositive` | agromarket/src/pages/MyproductPage.tsx:60-75 | an accepted product has a positive numeric price |
| `MyProductPage.InitialDraftRejected` | agromarket/src/pages/MyproductPage.tsx:15-21 | the initial form cannot be submitted |
| `MyProductPage.AddProductView.constructor` | agromarket/src/pages/MyproductPage.tsx:9-21 | the form starts as Tomate, no description, price 0, unit libra, no image |
| `MyProductPage.AddProductView.HandleInputChange` | agromarket/src/pages/MyproductPage.tsx:25-31 | only the description or only the price changes |
| `MyProductPage.AddProductView.HandleFileChange` | agromarket/src/pages/MyproductPage.tsx:33-41 | no file chosen: the form is unchanged; otherwise only the image changes |
| `MyProductPage.AddProductView.HandleUnitChange` | agromarket/src/pages/MyproductPage.tsx:43-48 | only the unit changes |
| `MyProductPage.AddProductView.HandleNameChange` | agromarket/src/pages/MyproductPage.tsx:50-55 | only the name changes |
| `MyProductPage.AddProductView.HandleSubmit` | agromarket/src/pages/MyproductPage.tsx:57-79 | rejected, with storage unchanged, exactly when name or description is empty, price is at most 0 or no image; otherwise the stored catalog equals the old catalog, unchanged, with the new product appended at its end; storage remains valid |
| `Navbar.ItemCount` | agromarket/src/components/Navbar.tsx:14-15 | the count is a number exactly when no quantity is NaN (`null` counts as 0), and is never `null` |
| `Navbar.ItemCountConcat` | agromarket/src/components/Navbar.tsx:14-15 | the count of two carts joined is the sum of their counts, so the count is the sum of the quantities |
| `Navbar.SingleLineCount` | agromarket/src/components/Navbar.tsx:15 | a one-line cart counts its quantity as a number, `null` as 0, and NaN as NaN |
| `Navbar.EmptyCartNoBadge` | agromarket/src/components/Navbar.tsx:14-16 | an empty or missing cart counts 0 and shows no badge |
| `Navbar.CountAtLeastLines` | agromarket/src/components/Navbar.tsx:14-16 | with quantities of at least 1, the count is at least the number of lines, so a non-empty cart shows the badge |
| `Navbar.StoredCartCounts` | agromarket/src/components/Navbar.tsx:14-15 | a cart read back from storage always counts to a number |
| `Navbar.EmptyBoxAddsNothing` | agromarket/src/components/Navbar.tsx:14-15 | a line added with an empty quantity box (stored as `null`) adds 0 to the count read back from storage |
| `Navbar.EmptyBoxThenTwo` | agromarket/src/components/Navbar.tsx:14-51 | a product added with an empty quantity box and then with quantity 2 gives a badge of 2 |
| `Navbar.AddProductsNeedsLogin` | agromarket/src/components/Navbar.tsx:58-70 | the seller link is shown only beside the logged-in links; the second clause restates the rendering condition at Navbar.tsx:70, which is itself the property |
| `Navbar.NavbarView.constructor` | agromarket/src/components/Navbar.tsx:9-17 | the count is read from the stored cart once and is always a number, never NaN; the menu is closed |
| `Navbar.NavbarView.ToggleMenu` | agromarket/src/components/Navbar.tsx:19-21 | the menu flag is negated, so two toggles restore it |
| `Navbar.NavbarView.CloseMenu` | agromarket/src/components/Navbar.tsx:48 | the menu is closed |
| `Navbar.NavbarView.HandleLogout` | agromarket/src/components/Navbar.tsx:87-89 | the user is logged out, the stored copy removed, the menu closed |

## Left out

- Rendering: JSX, styling, icons, layout and routing (`App.tsx`) are not modelled, and
  neither is `ProductCard.tsx`, which only displays its props.
- The cart context (`cartcontext`) is not part of this model. Its `addToCart`,
  `removeFromCart` and `useCart` are left out, and so is `productPage.tsx`, which only
  calls them. The checkout's cart and the cart page's initial cart are parameters.
- The `emailjs.send` network call is a boolean parameter: whether the send succeeded.
  `console.log` is left out.
- `Date.now()`, `new Date().toISOString()` and `URL.createObjectURL` are parameters.
- `alert`, `navigate` and the `setTimeout` messages (success, add, login, logout and error
  messages) are UI side effects and are left out.
- Local storage holds parsed records, not JSON text. The JSON round trip is modelled
  only on the number fields, where NaN becomes `null`. Stored records with missing or
  mistyped fields are not modelled. A profile that already holds data starts from
  `Storage.LocalStorage.Valid()`; a stored value edited by hand outside the storefront is
  not modelled.
- The cross-tab `storage` event listener on the cart page is left out.
- `toFixed` and `parseFloat` display rounding, and how a `null` total prints (`$null`), are
  left out; amounts are exact reals.
- JavaScript coercion is left out. The price typed into the add-product form arrives as a
  string in the source; here it is already a number. `parseInt` and `parseFloat` are
  represented by their result, a number or NaN.
- The `selectedRating` state is set on each comment and never read, so it is left out.
  The rating copied into a cart line by the product spread is kept in the record but
  read by nothing.
- `Text.LowerChar`: lowers ASCII and Latin-1 capitals only, not the full Unicode case
  mapping of `toLowerCase`. That is enough for Spanish product names, but not for all of
  Unicode.
- `AuthContext.AuthProvider.constructor`: merges the initial `null` state with the load
  effect. The first render, which still has no user even when a stored copy exists, is
  not modelled.
- `Checkout.CheckoutView.HandleSubmit`: `isProcessing` is `true` only while the send is
  pending, which is not observable here. The contract states only its final value. The
  `errorMessage` reset is left out.
- `useAuth` raising an error outside its provider is left out.
