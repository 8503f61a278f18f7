# Storefront client model

This project models the core of the storefront's web client:

- **HTTP client** (`ApiClient`, `Services`):
  - how a failed request becomes a "status: message" line;
  - which failures count as a database concurrency conflict;
  - which bearer token a request carries;
  - what the response interceptor does with a rejection: console line, `api-error` event, and dropping the session on 401;
  - the `cartAPI`, `authAPI` and `ordersAPI.checkout` calls, including the normalisation of the cart the server returns.
- **Cart synchroniser** (`CartSync`): the cart state that every change refetches. Its count stays equal to the sum of the item quantities.
- **Session stores**:
  - `Session`: restore at start-up, login, registration, logout, and the admin flag derived from the JWT;
  - `LegacySession`: the older store without the admin flag;
  - `AuthUtils`: the route guards' own `isLoggedIn` and `isAdmin`.
- **Pages**:
  - product card and product page (`ProductCardView`, `ProductDetailView`, `AddFeedback`);
  - cart page and checkout, with their shared pricing rule (`CartPage`, `CheckoutPage`, `Pricing`);
  - home page (`Home`);
  - login/registration page (`AuthPage`);
  - the two products admin pages and the orders admin page (`ProductsAdmin`, `AdminProducts`, `OrdersAdmin`, `AdminImport`);
  - the payload of the mock import (`MockImport`).

JavaScript values are modelled by `Js.Val`: undefined, null, booleans, numbers (a real or NaN), strings, objects and arrays. The JavaScript operators the code relies on are written out over `Js.Val`: truthiness, `??`, `||`, `Number(...)`, `String(...)`, `parseFloat` and `parseInt`.

Browser state is one value held by a `Browser` object:

- `localStorage`;
- the requests sent;
- the `api-error` events dispatched;
- the console errors written;
- the toasts shown;
- the routes navigated to.

The server is a function that gives the reply to the n-th request. `ApiClient.Exchange` states what one round trip does. The cart, the session stores, the product card, the product page's add to cart, the cart page, checkout and the auth page all talk through the browser.

The product lists and orders that the home page, the product page and the admin pages fetch through `productsAPI`, `ordersAPI` and src/api/products.ts are taken as inputs. For them, each reply is a method parameter, and the admin and home pages keep a ghost `calls` log of the requests they make.

JSON parsing, JSON serialisation and the decoding of a JWT payload are given as functions.

## Model

| member | source | states |
|---|---|---|
| ApiClient.StatusText | backup/api.ts:10 | a missing or zero status reads "Unknown"; any other status is spelled so that `Number` reads it back, and never contains ':' |
| ApiClient.MessageOf | backup/api.ts:11-27 | the message precedence: a string body (even empty), else a non-empty `message`, else a non-empty `error`, else the error's own message, else "Request failed" |
| ApiClient.ExtractErrorMessageSplits | backup/api.ts:29 | the "status: message" line splits back into exactly the status text and the message, whatever the message contains |
| ApiClient.ExtractErrorMessageParts | backup/api.ts:29 | the line is the status text, then ": ", then the message |
| ApiClient.IsConcurrencyError | backup/api.ts:33-47 | only status 500 qualifies; with 500, a string body qualifies exactly when it mentions DbUpdateConcurrencyException, and an object with a non-empty message exactly when that message does; a missing body qualifies, while an empty string body and an object without a message do not |
| ApiClient.MarkerDecidesAt500 | backup/api.ts:35-43 | a body or message mentioning DbUpdateConcurrencyException is a conflict exactly when the status is 500 |
| ApiClient.ConflictMessageMentionsMarker | backup/api.ts:33-47 | a conflict that carries a body has DbUpdateConcurrencyException in the message its extracted line shows |
| ApiClient.StoredToken | backup/api.ts:56-59 | the first non-empty of jwt, access_token, token; absent exactly when all three are missing or empty |
| ApiClient.SelectToken | backup/api.ts:56-60 | a stored token wins; VITE_JWT is used only when none is stored; the chosen token is never empty |
| ApiClient.AuthHeader | backup/api.ts:56-64 | a header exactly when a token is stored or VITE_JWT is set, and then "Bearer " followed by the chosen token |
| ApiClient.TokenPrecedence | backup/api.ts:56-64 | the Authorization header is "Bearer " plus the first available token in the order jwt, access_token, token, VITE_JWT, and is absent when there is none |
| ApiClient.ReactionTo | backup/api.ts:77-106 | logged exactly when the failure is not a conflict; whatever is logged is broadcast; only a conflict goes unbroadcast; the session drops exactly on a 401 |
| ApiClient.ConsoleLine | backup/api.ts:85-90 | the console line begins with "API Error: " and ends with the same "status: message" line the api-error event carries |
| ApiClient.ReactionRules | backup/api.ts:78-106 | every failure is broadcast except an add-to-cart conflict; no conflict is logged; whatever is logged is broadcast; only a 401 drops the session |
| ApiClient.CartAddOnlyForAddItem | backup/api.ts:78-79 | among the client's calls, only the add-to-cart request is a POST whose URL contains /api/cart/items |
| ApiClient.DropSession | backup/api.ts:101-103 | exactly "jwt" and "user" leave storage; every other key keeps its value |
| ApiClient.AfterRejection | backup/api.ts:83-106 | a rejection adds no request, toast or navigation |
| ApiClient.Exchange | backup/api.ts:52-108 | one round trip sends the request with the header chosen from storage at send time; a success changes nothing else; a rejection goes through the interceptor |
| ApiClient.Browser.Send | backup/api.ts:52-108 | the browser after sending is the exchange's state, and the reply is the exchange's reply |
| Services.ClampQuantity | backup/api.ts:189 | the quantity sent is at least 1: the given number when it exceeds 1, else 1 (NaN included) |
| Services.ClampIdempotent | backup/CartContext.tsx:128-132 | clamping in the cart and again in the service sends what one clamp sends |
| Services.ApiPrice | backup/api.ts:169 | never null or undefined: a number price is kept, else the nested product's truthy price, else 0 |
| Services.ApiLineTotal | backup/api.ts:171 | a truthy stated total is kept; otherwise a number: price times quantity when that is truthy, else the product's price (or 0) times the quantity (or 1); with no price and no quantity on the item, the product's price |
| Services.FallbackProduct | backup/api.ts:172-180 | every field is present; the id is the truthy productId, else the truthy id, else ''; the price is a number price or 0; every other field is the item's truthy value or its default ("Unknown Product", '', 0) |
| Services.RawItems | backup/api.ts:157-160 | a truthy body with an items array yields exactly those items; a falsy body or one without an items array yields none |
| Services.NormalizeCart | backup/api.ts:157-184 | one normalised item per raw item, in order; a number total is kept, else 0; a null or undefined item rejects the whole call with a TypeError |
| Services.NormalizedItemFields | backup/api.ts:165-181 | id and productId are the truthy productId, else id; the name is the item's, else the product's, else "Unknown Product"; the quantity is a number quantity or 1; the price a number price, else the product's truthy price, else 0; the line total the stated one, else price times quantity, else the product's price (or 0) times the quantity (or 1); a truthy product is kept, else the fallback product is built |
| Services.FetchCart | backup/api.ts:146-185 | `cartAPI.get` has the browser effect of one GET /api/cart |
| Services.GetCartData | backup/api.ts:146-185 | the method leaves the browser and resolves exactly as FetchCart says |
| Services.AddCartItem | backup/api.ts:186-195 | posts the clamped quantity; resolves exactly when the server answers with success |
| Services.RemoveCartItem | backup/api.ts:196-198 | one DELETE of the item; resolves exactly when the server answers with success |
| Services.ClearCartItems | backup/api.ts:199-201 | one POST to /api/cart/clear; resolves exactly when the server answers with success |
| Services.CallForData | backup/api.ts:112-121 | login, register and checkout resolve to the response body, or reject with the failure |
| CartSync.NormalizeCartItem | backup/CartContext.tsx:57-97 | each field is the first of its sources that is neither null nor undefined: the price from the item, its product, then unitPrice, else 0; the name from the item, its product, the item's title, the product's title, else "Unknown Product"; the id from productId, then id, else ''; the quantity the given one or 1; the line total the given one, else price times quantity; the name is never null |
| CartSync.EmptyItemDefaults | backup/CartContext.tsx:59-88 | an item with no fields gets an empty id, "Unknown Product", price 0, quantity 1 and line total 0 |
| Js.CoalesceAll | backup/CartContext.tsx:59-87 | a `??` chain: the first value that is neither null nor undefined, else the final default |
| Js.CoalesceChain3 | backup/CartContext.tsx:59-61 | `a ?? b ?? c ?? d`, associated as JavaScript does, is the first present value of a, b, c, else d |
| Js.CoalesceChain4 | backup/CartContext.tsx:66-71 | the five-way name chain is the first present value of its four sources, else the default |
| CartSync.SumQuantitiesFinite | backup/CartContext.tsx:107 | the count is a number exactly when every quantity is |
| CartSync.SumQuantitiesNonNegative | backup/CartContext.tsx:107 | non-negative number quantities give a non-negative count |
| CartSync.SumQuantitiesCountsUnits | backup/CartContext.tsx:107 | with every quantity 1, the count is the number of lines |
| CartSync.SumLineValuesSign | backup/CartContext.tsx:102-105 | the fallback total is a number exactly when every price and quantity is one, and non-negative when they all are non-negative |
| CartSync.Loaded | backup/CartContext.tsx:99-115 | after a fetch: items normalised one for one; count is the sum of quantities; total is the server's number total, else the sum of price times quantity; no error |
| CartSync.Refresh | backup/CartContext.tsx:36-124 | signed out: the empty cart and no request; signed in: one GET, then the loaded state, or on failure the old items with the extracted message |
| CartSync.RefreshKeepsConsistent | backup/CartContext.tsx:107-122 | every refresh keeps count equal to the sum of quantities; a failed one keeps items, total and count |
| CartSync.Remove | backup/CartContext.tsx:151-162 | sends the DELETE, then the refresh's requests; keeps count equal to the sum of quantities; signed out, the cart is emptied; a successful refresh loads the fetched cart |
| CartSync.RemoveErrorClearedByRefresh | backup/CartContext.tsx:151-162 | a failed removal's own message never survives the refresh after it: signed out or after a successful refresh there is no error, and after a failed refresh the error is the refresh's message |
| CartSync.RefreshSends | backup/CartContext.tsx:36-53 | a refresh sends one GET when signed in and nothing otherwise |
| CartSync.ExchangeThenRefreshSends | backup/CartContext.tsx:130-135 | a call followed by a refresh sends that call, then the refresh's requests |
| CartSync.ComposedItem | backup/CartContext.tsx:57-97 | the item the service normalised, read again by the cart: quantity is the number quantity or 1; price and line total are the service's; the name never falls through to a title field |
| CartSync.ServiceItemFields | backup/api.ts:165-181 | the service's item carries its price, quantity, line total, name and id fields, none of them null |
| CartSync.ComposedTotal | backup/CartContext.tsx:99-105 | because the service already defaults the total to 0, the cart's own fallback sum never runs |
| CartSync.ScenarioLine | backup/CartContext.tsx:57-97 | an item of price 199.99 and quantity 2 becomes a line of total 399.98 |
| CartSync.ScenarioCart | backup/api.ts:157-184 | the scenario reply normalises to that one item with total 399.98 |
| CartSync.LoadedScenario | backup/CartContext.tsx:99-115 | the scenario reply loads as one line of total 399.98, count 2, total 399.98 and no error |
| CartSync.RefreshScenario | backup/CartContext.tsx:53-115 | a signed-in refresh with that reply leaves one line, count 2, total 399.98 and no error |
| CartSync.CartSynchronizer.constructor | backup/CartContext.tsx:28-34 | the cart starts empty, signed out, and consistent |
| CartSync.CartSynchronizer.TotalItems | backup/CartContext.tsx:192 | under the invariant, `getTotalItems` is the sum of the item quantities |
| CartSync.CartSynchronizer.RefreshCart | backup/CartContext.tsx:36-124 | the new cart and browser are Refresh of the old; the invariant is kept |
| CartSync.CartSynchronizer.OnAuthChange | backup/CartContext.tsx:195-199 | while the session loads, nothing happens; afterwards, one refresh under the new session |
| CartSync.CartSynchronizer.AddToCart | backup/CartContext.tsx:126-149 | adds the clamped quantity; success or a conflict refreshes and resolves; any other failure stores its message, skips the refresh and rethrows |
| CartSync.CartSynchronizer.RemoveFromCart | backup/CartContext.tsx:151-162 | one DELETE, then a refresh on both paths; never rethrows |
| CartSync.CartSynchronizer.UpdateQuantity | backup/CartContext.tsx:164-178 | a quantity at most 0 is exactly a removal; otherwise remove, add, refresh, and the first failure is rethrown with the cart unchanged |
| CartSync.CartSynchronizer.ClearCart | backup/CartContext.tsx:180-188 | clear, then refresh; a failed clear is rethrown with the cart unchanged |
| Session.Candidates | src/contexts/AuthContext.tsx:19-23 | three role claims are checked: role, roles, and the WS-Federation role claim |
| Session.HasAdminRole | src/contexts/AuthContext.tsx:17-34 | true exactly when the payload is truthy and some claim is "Admin", a JSON array string holding "Admin", or an array holding "Admin" |
| Session.AdminIsCaseSensitive | src/contexts/AuthContext.tsx:27-29 | "admin" in lower case grants nothing; "Admin" does, alone or inside a roles array |
| Session.ParseJwt | src/contexts/AuthContext.tsx:5-15 | a token that does not decode yields {}; decoding never throws |
| Session.Restore | src/contexts/AuthContext.tsx:53-82 | both keys present and the user parsing: signed in, storage kept, and the admin flag read from the stored token; the user not parsing: both keys dropped and the previous state; a key missing: storage untouched and the previous state; loading always ends |
| Session.SignedIn | src/contexts/AuthContext.tsx:84-128 | success stores the token and the serialised user, signs in, reads the admin flag from the token, and changes the browser only by those two keys beyond the exchange; any failure, including a body that cannot be destructured, keeps the session and changes the browser only through the exchange |
| Session.SessionStore.constructor | src/contexts/AuthContext.tsx:46-51 | nobody signed in, loading, not admin |
| Session.SessionStore.CheckAuth | src/contexts/AuthContext.tsx:53-82 | the session, admin flag and storage become Restore of the stored state |
| Session.SessionStore.SignIn | src/contexts/AuthContext.tsx:84-105 | the store's new state, browser and outcome are SignedIn of the old |
| Session.SessionStore.Login | src/contexts/AuthContext.tsx:84-105 | `login` behaves as SignedIn for the login request |
| Session.SessionStore.Register | src/contexts/AuthContext.tsx:107-128 | `register` behaves as SignedIn for the register request |
| Session.SessionStore.Logout | src/contexts/AuthContext.tsx:130-139 | exactly jwt and user are removed; signed out, not loading, not admin |
| Session.SignInSurvivesRestart | src/contexts/AuthContext.tsx:84-100 | after a login with a non-empty token and a user that survives JSON, a restart restores the same user and admin flag |
| Session.LogoutSurvivesRestart | src/contexts/AuthContext.tsx:130-139 | after a logout, a restart stays signed out and leaves storage alone |
| Session.RestoreSettles | src/contexts/AuthContext.tsx:53-82 | a second start-up check, from the storage and session the first one left, changes nothing |
| LegacySession.LegacyRestore | backup/AuthContext.tsx:20-44 | both keys present and the user parsing: signed in with storage kept; the user not parsing: both keys dropped and the previous state; a key missing: storage untouched and the previous state; loading always ends |
| LegacySession.LegacySessionStore.constructor | backup/AuthContext.tsx:14-18 | nobody signed in, loading |
| LegacySession.LegacySessionStore.CheckAuth | backup/AuthContext.tsx:20-44 | the session and storage become LegacyRestore of the stored state |
| LegacySession.LegacySessionStore.SignIn | backup/AuthContext.tsx:46-82 | success stores both keys and signs in; failure rethrows with the session as it was |
| LegacySession.LegacySessionStore.Logout | backup/AuthContext.tsx:84-92 | exactly jwt and user are removed; signed out |
| AuthUtils.IsLoggedIn | src/utils/auth.ts:8-14 | logged in exactly when jwt, access_token or token is stored and non-empty |
| AuthUtils.EnvTokenIsNotLogin | src/utils/auth.ts:3-14 | the build-time token authorises requests but does not count as logged in |
| AuthUtils.SomeAdminIgnoringCase | src/utils/auth.ts:36 | true exactly when an element lower-cases to "admin" and only strings precede it; throws exactly when a non-string element comes before any such match; false exactly when every element is a string other than "admin" in any case |
| AuthUtils.AdminCheck | src/utils/auth.ts:34-36 | a null payload throws; role "admin" passes; otherwise no roles answers false, a roles string answers whether it contains "admin", a roles array passes exactly when it holds "admin" or the case-insensitive search passes, and any other roles value throws |
| AuthUtils.IsAdmin | src/utils/auth.ts:20-47 | true exactly when a JWT is stored, its payload decodes, and the check answers true without throwing |
| AuthUtils.RolesStringIsSubstringMatch | src/utils/auth.ts:35 | a roles string passes whenever it merely contains "admin" |
| AuthUtils.RolesArrayIsElementMatch | src/utils/auth.ts:35-36 | a one-element roles array passes exactly when its element lower-cases to "admin"; "Admin" passes |
| AuthUtils.NonStringRoleFails | src/utils/auth.ts:35-36 | a non-string element before the match makes the check throw, so the answer is false; an exact "admin" anywhere in the array still passes, through `includes` |
| AuthUtils.GuardAndStoreDisagree | src/utils/auth.ts:34 | role "admin" passes the guard but not the store; role "Admin" passes the store but not the guard |
| AddFeedback.AddOutcome | backup/CartContext.tsx:126-149 | the cart's add resolves exactly on success or a conflict; a rejection carries the server's failure, never a conflict |
| AddFeedback.Feedback | src/components/ui/ProductCard.tsx:48-63 | success toasts "Added to cart"; a non-conflict failure toasts its extracted message as an error; only a 401 navigates to /login |
| AddFeedback.CartUpdatedIsNeverShown | src/components/ui/ProductCard.tsx:55-56 | the cart swallows conflicts, so the "Cart updated" toast is never shown |
| ProductCardView.ButtonLabel | src/components/ui/ProductCard.tsx:115 | "Out of stock" before the in-flight label; "Add to cart" exactly when the button is enabled |
| ProductCardView.ButtonCoversStockGuard | src/components/ui/ProductCard.tsx:69-106 | whenever the handler's stock check at line 38 refuses, the button is already disabled; a product without a stock count is disabled but passes the handler's check |
| ProductCardView.ProductCard.constructor | src/components/ui/ProductCard.tsx:25-28 | not pending |
| ProductCardView.ProductCard.Begin | src/components/ui/ProductCard.tsx:30-46 | the login guard (toast, /login), the stock guard (toast), then single-flight; only a click that passes all three sets pending and starts the add |
| ProductCardView.ProductCard.Finish | src/components/ui/ProductCard.tsx:48-66 | the add of one unit settles as AddOutcome; the cart and browser end as Refresh or the stored error, plus the feedback; pending ends false |
| ProductCardView.ProductCard.HandleAddToCart | src/components/ui/ProductCard.tsx:30-67 | an add is started exactly when logged in, in stock and not pending; it sends the add first; a refused click sends nothing |
| ProductCardView.StartsWithAdd | src/components/ui/ProductCard.tsx:44-49 | the requests of a started click begin with the add |
| ProductDetailView.FindIndex | backup/ProductDetail.tsx:42 | the first product whose id strictly equals the route id, or none when no product matches |
| ProductDetailView.FindProduct | backup/ProductDetail.tsx:42 | found exactly when some product matches, and then the first match |
| ProductDetailView.ViewOf | backup/ProductDetail.tsx:44-71 | spinner while loading; the product when found; otherwise the not-found view, titled after the load error when there is one |
| ProductDetailView.SelectorStaysInRange | backup/ProductDetail.tsx:201-217 | from a quantity in range, with stock at least 1, any run of minus and plus presses keeps the quantity between 1 and the stock |
| ProductDetailView.Minus | backup/ProductDetail.tsx:206 | one less, but never below 1; NaN stays NaN |
| ProductDetailView.ProductDetailPage.constructor | backup/ProductDetail.tsx:17-22 | quantity 1, loading, no products, not adding |
| ProductDetailView.ProductDetailPage.Load | backup/ProductDetail.tsx:24-40 | the list on success; an empty list and the load error on failure; loading ends |
| ProductDetailView.ProductDetailPage.Decrement | backup/ProductDetail.tsx:206 | the quantity becomes Minus of the old one, so a number quantity stays at least 1; nothing else changes |
| ProductDetailView.ProductDetailPage.Increment | backup/ProductDetail.tsx:213 | plus caps the quantity at the stock; nothing else changes |
| ProductDetailView.ProductDetailPage.Begin | backup/ProductDetail.tsx:73-92 | the login guard, the stock guard on `product.stock`, then single-flight; a passing click starts an add of the clamped quantity; products, quantity, loading and error are untouched |
| ProductDetailView.ProductDetailPage.Finish | backup/ProductDetail.tsx:93-113 | the add settles as AddOutcome; the cart and browser end as Refresh or the stored error, plus the feedback; isAdding ends false; loading and error are untouched |
| CartPage.SafeItems | src/pages/Cart.tsx:12 | anything but an array shows no items |
| CartPage.LineOf | src/pages/Cart.tsx:125-130 | a line's defaults: "Unknown Product", price 0, quantity 1, and line total price times quantity when none is given |
| CartPage.SummaryUndercountsMissing | src/pages/Cart.tsx:183 | the summary's item count falls short of the quantities the lines show by one per item without a quantity |
| CartPage.CheckoutTarget | src/pages/Cart.tsx:45-51 | /checkout exactly when signed in, /login otherwise |
| CartPage.RemoveTarget | src/pages/Cart.tsx:152 | a non-empty string product id is passed as it is; any truthy id as its string; a falsy or missing one as '' |
| CartPage.SummaryCountNonNegative | src/pages/Cart.tsx:183 | missing or non-negative quantities give a non-negative summary count |
| CartPage.CartView.constructor | src/pages/Cart.tsx:14 | not refreshing |
| CartPage.CartView.HandleRefresh | src/pages/Cart.tsx:16-25 | one refresh; refreshing ends false |
| CartPage.CartView.HandleRemoveItem | src/pages/Cart.tsx:27-34 | removes the line's product id (or ''), as the cart's removal does |
| CartPage.CartView.HandleClearCart | src/pages/Cart.tsx:36-43 | clears and refreshes; a failed clear is swallowed with the cart unchanged |
| CartPage.CartView.HandleCheckout | src/pages/Cart.tsx:45-51 | navigates once, to CheckoutTarget |
| Pricing.Shipping | src/pages/Cart.tsx:188 | free exactly from a total of 100 up; otherwise 9.99 (NaN included) |
| Pricing.Tax | src/pages/Cart.tsx:192 | a number exactly when the total is; between 0 and the total for a non-negative total, and between the total and 0 for a negative one |
| Pricing.FinalTotal | src/pages/Cart.tsx:198 | the grand total is the subtotal times 1.08, plus 9.99 below 100 |
| Pricing.FinalTotalCoversSubtotal | src/pages/Cart.tsx:198 | the grand total of a non-negative subtotal is never below it |
| Pricing.ShippingCliff | src/pages/Cart.tsx:188-198 | a subtotal of 99 costs 116.91 in all and one of 100 costs 108 |
| Pricing.FinalTotalMonotoneOnEachSide | backup/Checkout.tsx:56-59 | on each side of the threshold, a larger subtotal never costs less |
| CheckoutPage.OrderLine | backup/Checkout.tsx:35-39 | each order line carries the item's product id, quantity and price |
| CheckoutPage.OrderLines | backup/Checkout.tsx:35-39 | one line per cart item, in cart order |
| CheckoutPage.OrderDataFields | backup/Checkout.tsx:34-43 | the order carries the lines field for field, and the displayed grand total |
| CheckoutPage.CheckoutView.constructor | backup/Checkout.tsx:12-27 | the empty shipping form with country USA, the empty payment form, not processing |
| CheckoutPage.CheckoutView.HandleSubmit | backup/Checkout.tsx:29-54 | places the order, then clears the cart, then goes to /checkout/success; the first failure stops the sequence and is swallowed; processing ends false |
| CheckoutPage.SuccessFollowsOrderAndClear | backup/Checkout.tsx:45-47 | the success page follows exactly the order request and then the clear request |
| AdminImport.CompleteStatus | src/pages/admin/OrdersAdmin.tsx:60-69 | a completed import shows the counters; it is an error banner exactly when there are errors |
| AdminImport.CompleteMessageCountsErrors | src/pages/admin/OrdersAdmin.tsx:60-63 | the message ends in ". Errors: " and the error count, exactly when there are errors |
| AdminImport.FailedStatus | src/pages/admin/OrdersAdmin.tsx:70-76 | an error banner reading "Import failed: ", then the thrown message or "Unknown error", then the login advice |
| AdminImport.FailedStatusNamesCause | src/pages/admin/OrdersAdmin.tsx:70-76 | two thrown errors with different messages never show the same banner |
| AdminImport.ReportOf | src/pages/admin/OrdersAdmin.tsx:57-76 | the banner shows a success exactly for an import with no errors |
| AdminImport.Hidden | src/pages/admin/OrdersAdmin.tsx:80-82 | the timer hides the banner and keeps its text and kind |
| OrdersAdmin.FilteredOrders | src/pages/admin/OrdersAdmin.tsx:86-90 | an order shows exactly when its id contains the term and the filter is "all" or its status, ignoring case |
| OrdersAdmin.FilteredOrdersKeepOrder | src/pages/admin/OrdersAdmin.tsx:86-90 | the filter keeps order; no term with "all" shows every order |
| OrdersAdmin.WithStatus | src/pages/admin/OrdersAdmin.tsx:95-97 | only orders with that id change, and only in status |
| OrdersAdmin.StatusChangeSettles | src/pages/admin/OrdersAdmin.tsx:92-97 | the same change twice equals once; the changed order shows under its new status |
| OrdersAdmin.StatusColor | src/pages/admin/OrdersAdmin.tsx:104-119 | gray exactly for a status outside the five known ones, ignoring case |
| OrdersAdmin.StatusColorIgnoresCase | src/pages/admin/OrdersAdmin.tsx:105 | the colour of a status is the colour of its lower-case form |
| OrdersAdmin.OrdersAdminPage.constructor | src/pages/admin/OrdersAdmin.tsx:10-20 | no orders, filter "all", loading, banner hidden |
| OrdersAdmin.OrdersAdminPage.Load | src/pages/admin/OrdersAdmin.tsx:22-38 | the list on success; no orders and the load error on failure; the import state is untouched |
| OrdersAdmin.OrdersAdminPage.HandleStatusChange | src/pages/admin/OrdersAdmin.tsx:92-102 | success rewrites that order's status only; failure keeps the list and sets the error; loading and the import state are untouched |
| OrdersAdmin.OrdersAdminPage.HandleImportSampleProducts | src/pages/admin/OrdersAdmin.tsx:40-84 | without an admin token: the refusal banner and no request; otherwise one import request, its banner, and importing reset; the filters and loading are untouched |
| OrdersAdmin.OrdersAdminPage.HideImportStatus | src/pages/admin/OrdersAdmin.tsx:80-82 | the banner is hidden; nothing else changes |
| ProductsAdmin.FilteredProducts | backup/ProductsAdmin.tsx:99-102 | a product shows exactly when its name or category contains the term, ignoring case |
| ProductsAdmin.FilteredProductsKeepOrder | backup/ProductsAdmin.tsx:99-102 | the filter keeps order; an empty term shows every product |
| ProductsAdmin.ProductData | backup/ProductsAdmin.tsx:108-112 | every form field under the id (name, description, image, category, featured), price through parseFloat and stock through parseInt |
| ProductsAdmin.Replaced | backup/ProductsAdmin.tsx:116 | entries with the edited id become the saved product; the others stay |
| ProductsAdmin.Without | backup/ProductsAdmin.tsx:147 | exactly the entries with another id remain |
| ProductsAdmin.EditUnchangedKeepsProduct | backup/ProductsAdmin.tsx:129-139 | opening a product with whole-number price and stock and saving it unchanged gives back the same product |
| ProductsAdmin.ReportAsWritten | backup/ProductsAdmin.tsx:67-89 | as written, every import ends with an error banner; a completed one ends with the reload's ReferenceError |
| ProductsAdmin.CleanImportReportedAsFailure | backup/ProductsAdmin.tsx:75-89 | an import with no errors is reported as "Import failed: loadProducts is not defined…" where success was meant |
| ProductsAdmin.ProductsAdminPage.constructor | backup/ProductsAdmin.tsx:9-30 | empty list, modal closed, empty form, loading |
| ProductsAdmin.ProductsAdminPage.Load | backup/ProductsAdmin.tsx:32-48 | the list on success; no products and the load error on failure; the import state and search term are untouched |
| ProductsAdmin.ProductsAdminPage.HandleCloseModal | backup/ProductsAdmin.tsx:155-167 | modal closed, nothing being edited, form emptied; list, error, loading, search and import state untouched |
| ProductsAdmin.ProductsAdminPage.HandleEdit | backup/ProductsAdmin.tsx:129-141 | the modal opens on the product's fields; list, error, loading, search and import state untouched |
| ProductsAdmin.ProductsAdminPage.HandleSubmit | backup/ProductsAdmin.tsx:104-127 | while editing: update and replace in place; otherwise create and append; success closes the modal; failure keeps list and modal and sets the error; loading, search and import state untouched |
| ProductsAdmin.ProductsAdminPage.HandleDelete | backup/ProductsAdmin.tsx:143-153 | nothing without confirmation; a successful delete removes every entry with that id; a failed one sets the error; the modal, form, loading, search and import state are untouched |
| ProductsAdmin.ProductsAdminPage.HandleImportAsWritten | backup/ProductsAdmin.tsx:50-97 | the import handler as written: its banner is ReportAsWritten; the list, error, modal, form, search and loading are untouched |
| ProductsAdmin.ProductsAdminPage.HandleImport | backup/ProductsAdmin.tsx:50-97 | the import handler as intended: the completion banner stays and the list reloads (error cleared on success, loading ends); the modal, form and search are untouched |
| AdminProducts.TrimField | src/pages/admin/AdminProducts.tsx:63-68 | a string field is trimmed; any other value throws |
| AdminProducts.SaveRequest | src/pages/admin/AdminProducts.tsx:62-70 | a payload exactly when the text fields are strings and the trimmed name is non-empty; a blank name is refused with "Name is required" |
| AdminProducts.FormOf | src/pages/admin/AdminProducts.tsx:39-50 | the id is copied; every other field is copied unless null or undefined, when it becomes '' (text) or 0 (price, stock) |
| AdminProducts.EditedRowSavesItself | src/pages/admin/AdminProducts.tsx:39-70 | a row opened for editing and saved unchanged sends its own fields back |
| AdminProducts.BlankNameShown | src/pages/admin/AdminProducts.tsx:70-79 | a blank name is refused and shown as "Unknown: Name is required" |
| AdminProducts.AfterLoad | src/pages/admin/AdminProducts.tsx:27-35 | an array reply replaces the rows; any other reply empties them; a failure keeps them and stores the extracted message |
| AdminProducts.AdminProductsPage.constructor | src/pages/admin/AdminProducts.tsx:14-25 | no rows, empty form, not editing |
| AdminProducts.AdminProductsPage.Load | src/pages/admin/AdminProducts.tsx:27-35 | the rows and error become AfterLoad of the reply |
| AdminProducts.AdminProductsPage.StartEdit | src/pages/admin/AdminProducts.tsx:39-50 | editing the row's id, with FormOf the row; loading and saving untouched |
| AdminProducts.AdminProductsPage.CancelEdit | src/pages/admin/AdminProducts.tsx:52 | not editing, empty form; loading and saving untouched |
| AdminProducts.AdminProductsPage.Save | src/pages/admin/AdminProducts.tsx:59-81 | an invalid form sends nothing and shows why; otherwise (through Submit) update or create, then reload and reset after success with loading ended, or keep the form and loading and show the failure |
| AdminProducts.AdminProductsPage.Del | src/pages/admin/AdminProducts.tsx:83-91 | nothing unless confirmed; otherwise the delete, then the reload with loading ended, or the failure's message; saving is untouched |
| Home.FirstAppearances | backup/Home.tsx:45 | each unseen value once, no duplicates, exactly the values of the list not already seen |
| Home.FirstAppearancesAppend | backup/Home.tsx:45 | the distinct values of a concatenation are those of the first part, then the new ones of the second: first-appearance order |
| Home.CategoriesOf | backup/Home.tsx:45 | one category per product, in order |
| Home.Categories | backup/Home.tsx:45 | "all" first, then each product category exactly once |
| Home.CategoriesDistinctUnlessAll | backup/Home.tsx:45 | the list has no duplicates exactly when no product's category is "all" |
| Home.FilteredProducts | backup/Home.tsx:47-52 | a product shows exactly when its category matches (or "all") and its name or description contains the term, ignoring case |
| Home.FilteredProductsKeepOrder | backup/Home.tsx:47-52 | the grid keeps order; "all" with no search shows every product |
| Home.FeaturedProducts | backup/Home.tsx:54 | exactly the featured products |
| Home.HomePage.constructor | backup/Home.tsx:9-13 | category "all", no search, no products, loading |
| Home.HomePage.Load | backup/Home.tsx:15-31 | the list on success; no products and the load error on failure |
| Home.HomePage.HandleProductDeleted | backup/Home.tsx:33-44 | a reload replaces the list; a failed reload keeps it and sets no error |
| AuthPage.CallFor | backup/Auth.tsx:31-41 | register mode registers and login mode logs in |
| AuthPage.AuthView.constructor | backup/Auth.tsx:12-20 | empty form, not loading, no error |
| AuthPage.AuthView.HandleChange | backup/Auth.tsx:56-61 | the named input takes the value; the others keep theirs |
| AuthPage.AuthView.HandleSubmit | backup/Auth.tsx:25-54 | mismatched passwords in register mode fail with "Passwords do not match" and send nothing; success toasts and goes to /; a failure shows and toasts its message; loading ends false |
| MockImport.PayloadEntry | src/api/products.ts:45-52 | name and price copied; description "", category "general", stockQuantity 10 and imageUrl (through image) null as defaults, never null where defaulted |
| MockImport.ImportPayload | src/api/products.ts:45 | one entry per mock product, same order |
| MockImport.ImportPayloadAppend | src/api/products.ts:45 | the payload of a concatenation is the concatenation of the payloads |
| MockImport.AsVal | src/data/mockData.ts:2-11 | a mock entry has `stock` but no `stockQuantity` or `image` |
| MockImport.MockEntryPayload | src/api/products.ts:45-52 | a mock entry maps to its name, description, category, price and image, with stockQuantity 10 |
| MockImport.MockStockIsIgnored | src/api/products.ts:50 | every mapped mock entry gets stockQuantity 10, whatever its stock |

## Left out

- Console output (`console.log`, `console.debug`, `console.error` outside the interceptor) is left out: it is not observable state. The interceptor's `console.error` line is kept.
- Concurrency and interleaving of awaited calls are left out.
  - Each handler runs to completion before the next.
  - The product card and product page handlers are split at the `await` into `Begin` and `Finish`.
  - React state updates take effect immediately.
- Floating point is left out. Numbers are reals.
  - `toFixed(2)` formatting of prices is not modelled.
  - Tax and totals are exact.
- The five-second `setTimeout` that hides the import banner is modelled as the separate method `HideImportStatus`, run when the timer fires.
- The intermediate "Starting import of sample products..." banner is set but immediately overwritten within one handler, so only the final banner is stated.
- Case folding in `toLowerCase` is ASCII only.
- `Number(...)` on strings follows the decimal grammar without exponents, hex, or `Infinity`.
- ProductsAdmin.ProductData: `parseFloat` and `parseInt` read plain decimal digits only. An exponent ("1e3" reads as 1, not 1000), "Infinity" (NaN here) and `parseInt`'s "0x" hex prefix ("0x10" reads as 0, not 16) are not modelled, because the number model has no infinities and no other bases.
- CartSync.CartSynchronizer.TotalPrice (`getTotalPrice`) returns the state's total as it is. It has no contract of its own: the server may report any total, and what the total is after each refresh is stated by `CartSync.Loaded` and `CartSync.Refresh`.
- Error-body fields that are not strings (a number `message`, say) are not represented.
- The `Date.now()` cache-buster on the cart URL is left out: the GET is modelled as plain `/api/cart`.
- The `title` and `unitPrice` alias fields written into cart products are not kept, since nothing reads them back.
- The product lists, orders and seed-import replies of the home page, the product page and the admin pages are inputs.
  - `productsAPI` (backup/api.ts:123-143) and `ordersAPI` other than `checkout` (backup/api.ts:207-223) are not modelled as exchanges, so the interceptor's effects on the browser are not stated for these calls.
  - src/api/api.ts and the wrappers of src/api/products.ts other than the import payload are not part of this model.
- AdminProducts `importMock` is not modelled: it uses `fetch` with no body, outside the HTTP client.
- `onChange` of AdminProducts is not modelled: it writes raw input strings into the form, which `ProductForm` already admits as `Val`.
- `ProductsAdmin.FormOf` prints numbers with `Js.NumberToString`, whose spelling is exact only for whole numbers. EditUnchangedKeepsProduct therefore covers whole-number prices and stock only.
- A 401 on a login attempt also drops the stored session. This is stated through `Exchange`, not as a separate property of the login page.
- The order-id search assumes string ids; an order whose id is not a string would make `toLowerCase` throw, which is not modelled.
- AuthPage.ErrorMessage: every rejection the model produces is an `Error`, so the "An error occurred" fallback is stated but never reached from `HandleSubmit`.
- Rendering (JSX, styles, icons, animation) is left out, except the labels and titles the handlers and guards decide.

## Findings

| source | as written | input that shows it | evidently intended | confidence | as-written member | corrected member |
|---|---|---|---|---|---|---|
| backup/ProductsAdmin.tsx:82 | after a completed import the handler calls `loadProducts()`, which exists only inside the mount effect, so a ReferenceError replaces the completion banner with "Import failed: loadProducts is not defined…" | an import reply with created 12, skipped 0 and no errors | keep the completion banner and reload the list | not executed | ProductsAdmin.CleanImportReportedAsFailure | ProductsAdmin.ProductsAdminPage.HandleImport |
