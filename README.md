# SmartShop front end — a verified model of its decision logic

SmartShop's web client is a React single-page application for a shop with two kinds
of users. A client sees their profile and orders. An administrator manages clients,
products, orders and payments. This project models in Dafny the parts of the client
that decide something:

- **The session store** (`AuthSlice`). This covers the session-restore thunk and its
  401/403 classifier, the logout thunk, and every reducer case. It is given as a pure
  reducer `Step`, used to reason about sequences of actions, and as the class
  `AuthStore`, whose methods assign the fields in place and are proved to agree
  with `Step`.
- **The route guard** (`ProtectedRoute`) and **the sidebar and logout flow** (`AppLayout`).
- **The resource stores** for orders, products, clients and payments (`OrdersSlice`,
  `ProductsSlice`, `ClientsSlice`, `PaymentsSlice`). Each thunk normalises its list body
  and picks its failure message. Each store keeps an invariant between requests.
- **The product table** (`ProductList`): paging requests, the five-button page window,
  the stock totals and the stock badge.
- **The admin order list** (`AdminOrdersPage`) and **the admin product catalogue**
  (`AdminProductsPage`). Both do their paging on the client side. The catalogue also
  has the create/edit modal flow.
- **The forms and their validators**:
  - the multi-line order form with its PROMO-XXXX rule (`AdminCreateOrderPage`)
  - the product dialog (`ProductFormModal`)
  - the client edit form with its e-mail pattern (`AdminClientDetailPage`)
  - the login form (`LoginPage`)
- **Lookups and enumerations**:
  - the loyalty badge (`LoyaltyBadge`)
  - the order and client lookups of the two order detail pages (`MeOrderDetailPage`,
    `AdminOrderDetailPage`)
  - the initials and the badges of the client page

Two helper modules support the rest:

- `Js` holds the JavaScript conventions the code relies on:
  - truthiness fallbacks (`x || d`)
  - `Array.isArray(x) ? x : []`
  - `slice` clamping
  - white space and `trim`
  - ASCII `toUpperCase`
  - integer-to-text conversion
- `JsNumber` models `Number(text)`, the free-text number parser, on exact reals.
  Its main results are:
  - blank text reads as 0
  - digit text reads as its decimal value
  - the text of an integer reads back as that integer

API calls are not executed: each becomes a parameter of type `Outcome<T>`, either
`Ok(body)` or `Err(ApiError(status, backendMessage, message))`, standing for the HTTP
status, `response.data.message` and `error.message`. A page's `useState` variables are
the fields of a class. A handler is a method with a `modifies` clause that states the
whole new state. The decisions those handlers make are pure functions with their own
lemmas.

Some behaviours of the code are easy to misread; the model follows the code:

- **Session invariant.** One would expect an authenticated session always to have
  a role, a user and status `succeeded`. The code does not keep this property.
  - `setAuthenticated` stores an empty role as `null`.
  - A restore whose profile request answers with a null body authenticates a
    session without a user.
  - A second restore leaves an authenticated session with status `loading`.
  - A later unknown failure leaves it authenticated with status `failed`.

  `AuthSlice.SetAuthenticatedWithoutRole`, `AuthSlice.NullProfileRestoreHasNoUser`
  and `AuthSlice.RestartedRestoreStaysAuthenticated` show these cases. What does hold
  is the weaker `ClientSession` invariant ("authenticated ⇒ CLIENT role with a
  profile"), along any trace of restore, clear and logout actions in which every
  fulfilled restore carries a profile.
- **Shared order status.** The orders store has one `status` and one `error` for both
  of its requests. A detail request can therefore leave `succeeded` next to the list
  request's error.
- **Stock badge.** A null or negative stock reads "Faible". Only exactly 0 reads
  "Rupture".
- **Blank stock.** In the product dialog, a stock field that holds only white space is
  accepted as 0, because `Number` reads blank text as 0.
- **No route id.** The client's order page never stops loading when it has neither a
  route id nor an order passed in navigation state.
- **Discount sign.** The admin order page puts a minus sign before any non-zero
  discount, negative ones included. The client's page shows a discount only when it is
  positive.
- **Login errors.** When the required-field rules stop a login, the previous
  backend message stays on screen. It is only cleared once a request is sent.
- **Messages after a submit.** The login form checks nothing while the user types
  until the first submit. After it, every change re-checks the changed field, so a
  required message disappears as soon as the field is filled and comes back when it is
  emptied.
- **Null order body.** When the admin detail request returns a null order, the page
  stores it. With a non-empty client list it then shows the loading error, because the
  client lookup reads a field of the null order. With an empty or null client list
  the lookup compares nothing, so no error is shown and the client name is null.

## Model

| member | source | states |
|---|---|---|
| Js.ErrorText | src/components/ProductFormModal.jsx:93-96 | the message is the backend message if non-empty, else the error's own message if non-empty, else the fixed default; never empty |
| Js.ArrayOrEmpty | src/store/ordersSlice.js:16 | an array body is kept as it is, any other body becomes the empty list |
| Js.TrimEmptyIffAllSpace | src/components/ProductFormModal.jsx:49-54 | `trim()` leaves nothing exactly when the text is all white space; otherwise it keeps a segment that neither starts nor ends with white space |
| Js.Upper | src/pages/admin/AdminCreateOrderPage.jsx:345 | upper-casing keeps the length and maps each character by itself (ASCII letters to capitals) |
| JsNumber.ParseNumber | src/components/ProductFormModal.jsx:56-68 | `Number(text)` reads the trimmed text as a numeric literal: white space around it never matters |
| JsNumber.BlankIsZero | src/components/ProductFormModal.jsx:63-67 | `Number` of empty or blank text is 0 |
| JsNumber.DigitsAreDecimal | src/pages/admin/AdminCreateOrderPage.jsx:105 | `Number` of non-empty digit text is its decimal value |
| JsNumber.NumberOfIntText | src/components/ProductFormModal.jsx:28-32 | `Number(String(n))` is `n` for every integer |
| Domain.FindClient | src/pages/admin/AdminOrdersPage.jsx:39 | `find` by id gives the first client with that id, and nothing exactly when no client has it |
| AuthSlice.ClassifySessionFailure | src/store/authSlice.js:22-26 | the rejection is UNAUTHENTICATED exactly for 401 and 403, otherwise UNKNOWN_ERROR |
| AuthSlice.FetchSession | src/store/authSlice.js:14-29 | a profile response always restores a CLIENT session with that profile; a failure is rejected with the classifier's reason for its status, UNAUTHENTICATED exactly for 401/403 |
| AuthSlice.PerformLogout | src/store/authSlice.js:32-42 | logout fulfils exactly when the request succeeds, else rejects with LOGOUT_FAILED |
| AuthSlice.RoleOrNull | src/store/authSlice.js:52 | a role is stored only when it is non-empty |
| AuthSlice.Step | src/store/authSlice.js:44-97 | the reducer: clear and a fulfilled logout give the initial state; the other logout actions change nothing; pending only starts loading and clears the error; fulfilled authenticates with the payload and succeeds; rejected fails, logging out without an error on UNAUTHENTICATED and otherwise recording a non-empty error with the identity kept; setAuthenticated authenticates, clears the error, stores a role only when non-empty, and keeps the status |
| AuthSlice.StepKeepsClientSession | src/store/authSlice.js:55-95 | every reducer case except setAuthenticated, and except a fulfilled restore without a profile, keeps "authenticated ⇒ CLIENT role with a profile" |
| AuthSlice.RunKeepsClientSession | src/store/authSlice.js:44-97 | that invariant holds after any sequence of restore, clear and logout actions whose fulfilled restores carry a profile |
| AuthSlice.NullProfileRestoreHasNoUser | src/store/authSlice.js:14-76 | a restore answered with a null profile body ends authenticated as CLIENT with no user, breaking that invariant |
| AuthSlice.SetAuthenticatedWithoutRole | src/store/authSlice.js:49-54 | setAuthenticated with an empty role gives an authenticated session without a role, breaking the intended invariant |
| AuthSlice.RestartedRestoreStaysAuthenticated | src/store/authSlice.js:66-87 | a second restore on a restored session stays authenticated while loading, and an unknown failure keeps it authenticated with status failed |
| AuthSlice.UnauthorizedRestoreLogsOut | src/store/authSlice.js:77-83 | a restore refused with 401/403 ends logged out, failed, with no error, from any state |
| AuthSlice.OtherRestoreFailureKeepsIdentity | src/store/authSlice.js:84-86 | any other restore failure only sets status failed and the UNKNOWN_ERROR message |
| AuthSlice.AuthStore.constructor | src/store/authSlice.js:5-11 | the store starts logged out, idle, without error |
| AuthSlice.AuthStore.SetAuthenticatedCase | src/store/authSlice.js:49-54 | authenticates with the given user and non-empty role, clears the error, keeps the status |
| AuthSlice.AuthStore.ClearAuthCase | src/store/authSlice.js:55-61 | returns to the initial state |
| AuthSlice.AuthStore.SessionPendingCase | src/store/authSlice.js:66-69 | sets loading, clears the error, keeps the identity |
| AuthSlice.AuthStore.SessionFulfilledCase | src/store/authSlice.js:70-76 | stores the restored user and role, authenticated, succeeded |
| AuthSlice.AuthStore.SessionRejectedCase | src/store/authSlice.js:77-87 | UNAUTHENTICATED logs out; any other reason keeps the identity and stores a non-empty message |
| AuthSlice.AuthStore.LogoutFulfilledCase | src/store/authSlice.js:89-95 | returns to the initial state |
| AuthSlice.AuthStore.Dispatch | src/store/authSlice.js:44-97 | the in-place update equals the reducer `Step` for every action |
| ProtectedRoute.Guard | src/components/ProtectedRoute.jsx:4-28 | placeholder exactly while loading; the outlet exactly when authenticated with the required role (if any); otherwise a redirect to /login |
| ProtectedRoute.UnauthorizedRestoreRedirects | src/components/ProtectedRoute.jsx:16-19 | after a 401/403 restore every guarded subtree redirects to /login |
| ProtectedRoute.RestoredClientSessionRouting | src/components/ProtectedRoute.jsx:21-27 | a restored session opens client and role-free subtrees and is redirected from admin subtrees |
| ProtectedRoute.PendingRestoreShowsPlaceholder | src/components/ProtectedRoute.jsx:8-14 | while a restore is pending the placeholder shows |
| ProtectedRoute.LoggedOutRedirects | src/components/ProtectedRoute.jsx:17-19 | after clearing or logging out every guarded subtree redirects |
| AppLayout.SidebarFor | src/layouts/AppLayout.jsx:12-139 | the client section shows exactly for CLIENT, the admin section exactly for ADMIN, never both; the logout button exactly for those two roles |
| AppLayout.HandleLogout | src/layouts/AppLayout.jsx:15-23 | logout always ends at /login; a successful one resets the store, a failed one leaves it unchanged |
| AppLayout.LoggedOutSidebarIsEmpty | src/layouts/AppLayout.jsx:15-23 | after a successful logout the sidebar has no section and no logout button |
| OrdersSlice.FetchAdminOrders | src/store/ordersSlice.js:11-24 | a non-array body becomes []; a failure carries the backend message or the fixed default, never empty |
| OrdersSlice.FetchOrderById | src/store/ordersSlice.js:26-39 | the body is passed on; a failure carries a non-empty message |
| OrdersSlice.OrdersStore.constructor | src/store/ordersSlice.js:4-9 | empty list, no current order, idle, no error |
| OrdersSlice.OrdersStore.ClearOrders | src/store/ordersSlice.js:45-49 | empties the list, idle, no error; the current order stays |
| OrdersSlice.OrdersStore.ClearCurrentOrder | src/store/ordersSlice.js:50-52 | only the current order is cleared |
| OrdersSlice.OrdersStore.Pending | src/store/ordersSlice.js:57-60 | both pending cases set loading and clear the error |
| OrdersSlice.OrdersStore.ListFulfilled | src/store/ordersSlice.js:61-64 | stores the list, succeeded |
| OrdersSlice.OrdersStore.ListRejected | src/store/ordersSlice.js:65-69 | failed with the reason or the list default |
| OrdersSlice.OrdersStore.DetailFulfilled | src/store/ordersSlice.js:75-78 | stores the current order, succeeded |
| OrdersSlice.OrdersStore.DetailRejected | src/store/ordersSlice.js:79-83 | failed with the reason or the detail default |
| OrdersSlice.OrdersStore.LoadList | src/store/ordersSlice.js:57-69 | a whole list request: success stores the normalised list without error, failure keeps the list and shows a non-empty message; the store invariant holds throughout |
| ProductsSlice.FetchAdminProducts | src/store/productsSlice.js:10-23 | a non-array body becomes []; a failure carries the backend message or the default |
| ProductsSlice.ProductsStore.constructor | src/store/productsSlice.js:4-8 | the initial state |
| ProductsSlice.ProductsStore.ClearProducts | src/store/productsSlice.js:29-33 | back to the initial state |
| ProductsSlice.ProductsStore.Pending | src/store/productsSlice.js:37-40 | loading, no error, list kept |
| ProductsSlice.ProductsStore.Fulfilled | src/store/productsSlice.js:41-44 | stores the list, succeeded |
| ProductsSlice.ProductsStore.Rejected | src/store/productsSlice.js:45-49 | failed with the reason or the default |
| ProductsSlice.ProductsStore.Load | src/store/productsSlice.js:37-49 | a whole request: the normalised list, or the kept list with a non-empty message |
| ClientsSlice.FetchClients | src/store/clientsSlice.js:10-23 | a non-array body becomes []; a failure carries the backend message or the default |
| ClientsSlice.ClientsStore.constructor | src/store/clientsSlice.js:4-8 | the initial state |
| ClientsSlice.ClientsStore.ClearClients | src/store/clientsSlice.js:29-33 | back to the initial state |
| ClientsSlice.ClientsStore.Pending | src/store/clientsSlice.js:37-40 | loading, no error, list kept |
| ClientsSlice.ClientsStore.Fulfilled | src/store/clientsSlice.js:41-44 | stores the list, succeeded |
| ClientsSlice.ClientsStore.Rejected | src/store/clientsSlice.js:45-48 | failed with the reason or the default |
| ClientsSlice.ClientsStore.Load | src/store/clientsSlice.js:37-48 | a whole request: the normalised list, or the kept list with a non-empty message |
| PaymentsSlice.CreatePayment | src/store/paymentsSlice.js:10-23 | the created payment is passed on; a failure carries the backend message or the default |
| PaymentsSlice.PaymentsStore.constructor | src/store/paymentsSlice.js:4-8 | the initial state |
| PaymentsSlice.PaymentsStore.ClearLastPayment | src/store/paymentsSlice.js:29-33 | back to the initial state |
| PaymentsSlice.PaymentsStore.Pending | src/store/paymentsSlice.js:37-40 | loading, no error |
| PaymentsSlice.PaymentsStore.Fulfilled | src/store/paymentsSlice.js:41-44 | stores the payment, succeeded |
| PaymentsSlice.PaymentsStore.Rejected | src/store/paymentsSlice.js:45-49 | failed with the reason or the default |
| PaymentsSlice.PaymentsStore.Create | src/store/paymentsSlice.js:37-49 | a whole request: the payment, or a non-empty message |
| ProductList.PrevRequest | src/components/ProductList.jsx:54-56 | asks for page − 1 exactly when not on the first page |
| ProductList.NextRequest | src/components/ProductList.jsx:58-60 | asks for page + 1 exactly when that page exists |
| ProductList.ButtonsAgreeWithHandlers | src/components/ProductList.jsx:203-242 | each button is disabled exactly when its handler would ask for nothing |
| ProductList.WindowLength | src/components/ProductList.jsx:210 | at most five buttons, one per page when there are fewer |
| ProductList.PageWindow | src/components/ProductList.jsx:210-219 | the buttons show consecutive existing pages and include the current one |
| ProductList.SumStockFromShift | src/components/ProductList.jsx:68-71 | the running sum is its start plus the total |
| ProductList.TotalStock | src/components/ProductList.jsx:67-71 | the "Stock total" is 0 for no products and a single product's stock (0 when null); with `TotalStockAppend` this fixes it as the sum of the stocks |
| ProductList.TotalStockAppend | src/components/ProductList.jsx:68-71 | the stock total is additive over concatenation |
| ProductList.TotalStockNonNegative | src/components/ProductList.jsx:68-71 | the total is not negative when no stock is |
| ProductList.LowStockProducts | src/components/ProductList.jsx:76-78 | the filter keeps only products with stock in 1..9, each low product with all its occurrences and no other product |
| ProductList.LowStockProductsAppend | src/components/ProductList.jsx:76-78 | the filter keeps the order: filtering a concatenation concatenates the filtered parts |
| ProductList.LowIndicesCount | src/components/ProductList.jsx:76-78 | the filtered list has exactly one element per position holding a low product |
| ProductList.LowStockCount | src/components/ProductList.jsx:76-78 | the count is the number of positions whose stock lies in 1..9, at most the number of products, and equal to it exactly when all are low |
| ProductList.LowStockCountIsFullIffAllLow | src/components/ProductList.jsx:76-78 | the filter keeps every product exactly when every product is low |
| ProductList.StockLevelOf | src/components/ProductList.jsx:313-324 | out of stock exactly at 0; low for a null stock or one below 10; available from 10 |
| ProductList.StockLabel | src/components/ProductList.jsx:320-324 | "Rupture" exactly at 0, otherwise the stock followed by "· Faible" or "· Dispo" |
| MeOrderDetailPage.FindOrder | src/pages/MeOrderDetailPage.jsx:46 | the first order whose id reads as the route id, and none exactly when no id matches |
| MeOrderDetailPage.HasDiscount | src/pages/MeOrderDetailPage.jsx:82 | a discount shows exactly when it is present and positive |
| MeOrderDetailPage.LinesOf | src/pages/MeOrderDetailPage.jsx:81 | the order's lines, or none |
| MeOrderDetailPage.LineLabel | src/pages/MeOrderDetailPage.jsx:265 | the product name when non-empty, else "Produit #id"; never empty |
| MeOrderDetailPage.MeOrderDetail.constructor | src/pages/MeOrderDetailPage.jsx:29-33 | an order from navigation state is shown at once, without loading |
| MeOrderDetailPage.MeOrderDetail.RunEffect | src/pages/MeOrderDetailPage.jsx:35-75 | fetches exactly without a passed order and with a route id; shows the matching order, or "Commande introuvable.", or the backend message or default |
| MeOrderDetailPage.NoIdKeepsLoading | src/pages/MeOrderDetailPage.jsx:29-73 | with neither a passed order nor a route id, nothing is fetched and the page stays loading with no order |
| AdminOrderDetailPage.StatusStyleOf | src/pages/admin/AdminOrderDetailPage.jsx:25-37 | each of the four statuses has its colour (CANCELED and REJECTED share red); anything else is neutral |
| AdminOrderDetailPage.ClientNameFor | src/pages/admin/AdminOrderDetailPage.jsx:62-65 | the name of the first client with the order's client id, none when there is no such client |
| AdminOrderDetailPage.ClientHeading | src/pages/admin/AdminOrderDetailPage.jsx:157 | the client name when non-empty, else "Client #id" |
| AdminOrderDetailPage.DiscountDisplay | src/pages/admin/AdminOrderDetailPage.jsx:181-182 | a minus sign exactly for a present, non-zero discount |
| AdminOrderDetailPage.DiscountRulesDiffer | src/pages/admin/AdminOrderDetailPage.jsx:181-182 | the two detail pages agree on discounts except negative ones, which only the admin page prefixes |
| AdminOrderDetailPage.AdminOrderDetail.constructor | src/pages/admin/AdminOrderDetailPage.jsx:43-46 | nothing loaded, no error |
| AdminOrderDetailPage.AdminOrderDetail.RunEffect | src/pages/admin/AdminOrderDetailPage.jsx:48-86 | fetches exactly with a route id; either failure gives the fixed error with the order kept; otherwise the order body is stored, a client body that is neither null nor an array gives the error, a null order gives the error only with a non-empty client list (else no error and no client name), and an order gets the name of its first matching client |
| AdminOrdersPage.TotalPages | src/pages/admin/AdminOrdersPage.jsx:108-109 | zero pages exactly for no orders, otherwise the least number of 10-order pages holding them all |
| AdminOrdersPage.SafeCurrentPage | src/pages/admin/AdminOrdersPage.jsx:110-111 | the requested page clamped into the existing pages (0 when none) |
| AdminOrdersPage.PaginatedOrders | src/pages/admin/AdminOrdersPage.jsx:112-116 | at most ten orders, the segment starting at the clamped page, never empty when there are orders |
| AdminOrdersPage.PagesFromIsSuffix | src/pages/admin/AdminOrdersPage.jsx:112-116 | the pages from p onward join to the orders from p × 10 onward |
| AdminOrdersPage.PagesCoverOrders | src/pages/admin/AdminOrdersPage.jsx:112-116 | joining all pages gives back exactly the order list |
| AdminOrdersPage.PageWindow | src/pages/admin/AdminOrdersPage.jsx:202-216 | at most five consecutive existing pages including the current one |
| AdminOrdersPage.CountStatus | src/pages/admin/AdminOrdersPage.jsx:100-105 | a status count is at most the total and 0 exactly when no order has those statuses |
| AdminOrdersPage.CountStatusAppend | src/pages/admin/AdminOrdersPage.jsx:100-105 | the count over two lists is the sum of their counts |
| AdminOrdersPage.CountIsMatchingPositions | src/pages/admin/AdminOrdersPage.jsx:100-105 | the count equals the number of positions holding an order with one of the statuses |
| AdminOrdersPage.PendingOrders | src/pages/admin/AdminOrdersPage.jsx:100-102 | the "En attente" card is the number of orders with status PENDING |
| AdminOrdersPage.PaidOrders | src/pages/admin/AdminOrdersPage.jsx:103-105 | the "Payées" card is the number of orders with status CONFIRMED or PAID |
| AdminOrdersPage.DisjointCountsBounded | src/pages/admin/AdminOrdersPage.jsx:100-105 | counts for disjoint status sets add up to at most the total |
| AdminOrdersPage.PendingAndPaidWithinTotal | src/pages/admin/AdminOrdersPage.jsx:100-105 | pending plus paid orders never exceed all orders |
| AdminOrdersPage.ClientLabel | src/pages/admin/AdminOrdersPage.jsx:38-44 | the first matching client's non-empty name, else "Client #id"; never empty |
| AdminOrdersPage.ClientLabelMatchesDetailHeading | src/pages/admin/AdminOrdersPage.jsx:38-44 | the list labels a client exactly as the detail page's heading does |
| AdminOrdersPage.OrdersPage.ClampIsIdentity | src/pages/admin/AdminOrdersPage.jsx:110-111 | under the page invariant the clamp never changes the current page |
| AdminOrdersPage.OrdersPage.constructor | src/pages/admin/AdminOrdersPage.jsx:49-55 | empty lists, first page |
| AdminOrdersPage.OrdersPage.HandlePrev | src/pages/admin/AdminOrdersPage.jsx:118-120 | one page back, not below 0, keeping the page invariant |
| AdminOrdersPage.OrdersPage.HandleNext | src/pages/admin/AdminOrdersPage.jsx:122-126 | one page on, not past the last page, keeping the page invariant |
| AdminOrdersPage.OrdersPage.ClickPageButton | src/pages/admin/AdminOrdersPage.jsx:202-221 | a numbered button moves to the page it shows, which always exists |
| AdminOrdersPage.OrdersPage.Load | src/pages/admin/AdminOrdersPage.jsx:58-92 | success stores both lists (null as empty) and returns to the first page; failure keeps them and shows the fixed error |
| AdminProductsPage.TotalPages | src/pages/admin/AdminProductsPage.jsx:50 | at least one page; exactly enough 12-product pages otherwise |
| AdminProductsPage.CurrentPage | src/pages/admin/AdminProductsPage.jsx:51 | the requested page, capped at the last page |
| AdminProductsPage.ShownProducts | src/pages/admin/AdminProductsPage.jsx:52-55 | at most twelve products, the segment of the capped page, never empty when there are products |
| AdminProductsPage.ProductsPage.constructor | src/pages/admin/AdminProductsPage.jsx:7-20 | empty list, first page, modal closed in create mode |
| AdminProductsPage.ProductsPage.Load | src/pages/admin/AdminProductsPage.jsx:23-47 | a list body replaces the products, any other body empties them, a failure shows the fixed error |
| AdminProductsPage.ProductsPage.SetPage | src/pages/admin/AdminProductsPage.jsx:142 | only the page changes |
| AdminProductsPage.ProductsPage.HandleFiltersChange | src/pages/admin/AdminProductsPage.jsx:57-60 | back to the first page with the new filters, showing the same products |
| AdminProductsPage.ProductsPage.HandleOpenCreate | src/pages/admin/AdminProductsPage.jsx:62-66 | opens the modal in create mode without a product |
| AdminProductsPage.ProductsPage.HandleOpenEdit | src/pages/admin/AdminProductsPage.jsx:68-72 | opens the modal in edit mode on that product |
| AdminProductsPage.ProductsPage.CloseModal | src/pages/admin/AdminProductsPage.jsx:154 | closes the modal, nothing else |
| AdminProductsPage.ProductsPage.HandleSubmitProduct | src/pages/admin/AdminProductsPage.jsx:79-91 | updates the selected product exactly in edit mode, otherwise creates; reloads after a successful write; throws when either request fails; never leaves the submitting flag set |
| AdminProductsPage.SubmitAfterOpenEdit | src/pages/admin/AdminProductsPage.jsx:68-91 | opening a product and submitting updates that product |
| AdminCreateOrderPage.MatchClassesPositionwise | src/pages/admin/AdminCreateOrderPage.jsx:10 | an anchored class pattern matches exactly the texts of its length matching position by position |
| AdminCreateOrderPage.PatternIsPromoShape | src/pages/admin/AdminCreateOrderPage.jsx:10-11 | the regular expression accepts exactly "PROMO-" followed by four capitals or digits |
| AdminCreateOrderPage.IsValidPromo | src/pages/admin/AdminCreateOrderPage.jsx:7-12 | a code is valid exactly when it is empty or its trimmed text has the PROMO-XXXX shape |
| AdminCreateOrderPage.BlankPromoIsInvalid | src/pages/admin/AdminCreateOrderPage.jsx:7-12 | a code of only white space is invalid |
| AdminCreateOrderPage.DigitsOnly | src/pages/admin/AdminCreateOrderPage.jsx:81 | the quantity filter leaves only digits, keeps digit text unchanged, keeps a single digit and drops a single non-digit |
| AdminCreateOrderPage.DigitsOnlyAppend | src/pages/admin/AdminCreateOrderPage.jsx:81 | the filter works character by character: the digits of a concatenation are the digits of each part in order, so every digit is kept once and in place |
| AdminCreateOrderPage.DigitsOnlyTyping | src/pages/admin/AdminCreateOrderPage.jsx:81 | typing one more character appends it exactly when it is a digit |
| AdminCreateOrderPage.TypedQuantityAccepted | src/pages/admin/AdminCreateOrderPage.jsx:105-108 | a typed quantity passes exactly when it is non-empty with value at least 1 |
| AdminCreateOrderPage.LineErrorsOf | src/pages/admin/AdminCreateOrderPage.jsx:100-110 | a line's product message exactly without a product, its quantity message exactly for a quantity that is not at least 1 |
| AdminCreateOrderPage.BlankPromoBlocksOrder | src/pages/admin/AdminCreateOrderPage.jsx:116-118 | a blank promo code keeps the order from being sent |
| AdminCreateOrderPage.LinesErrors | src/pages/admin/AdminCreateOrderPage.jsx:100-110 | one entry per line, in order |
| AdminCreateOrderPage.ErrorsForRules | src/pages/admin/AdminCreateOrderPage.jsx:89-122 | each message is present exactly when its rule is broken, and there are none exactly when the form may be sent |
| AdminCreateOrderPage.PromoOrNull | src/pages/admin/AdminCreateOrderPage.jsx:132 | the trimmed code, or null when it trims to nothing |
| AdminCreateOrderPage.BuildPayload | src/pages/admin/AdminCreateOrderPage.jsx:130-137 | the client as a number, the trimmed promo or null, one numeric line per form line in order |
| AdminCreateOrderPage.CreatedMessage | src/pages/admin/AdminCreateOrderPage.jsx:143-149 | the stock-rejection message exactly for a REJECTED order, else the success message |
| AdminCreateOrderPage.CreateOrderForm.constructor | src/pages/admin/AdminCreateOrderPage.jsx:17-30 | one empty line with quantity 1, no messages |
| AdminCreateOrderPage.CreateOrderForm.Load | src/pages/admin/AdminCreateOrderPage.jsx:33-63 | both lists normalised on success; the fixed error on either failure |
| AdminCreateOrderPage.CreateOrderForm.SetClientId | src/pages/admin/AdminCreateOrderPage.jsx:211 | only the client changes; lines, promo, messages, lists, loading flag and load error stay |
| AdminCreateOrderPage.CreateOrderForm.SetPromoCode | src/pages/admin/AdminCreateOrderPage.jsx:345 | the code is stored upper-cased; nothing else changes |
| AdminCreateOrderPage.CreateOrderForm.AddItem | src/pages/admin/AdminCreateOrderPage.jsx:65-67 | a new empty line with quantity 1 is appended after the unchanged lines; nothing else changes |
| AdminCreateOrderPage.CreateOrderForm.RemoveItem | src/pages/admin/AdminCreateOrderPage.jsx:69-71 | exactly the line at the index goes, the rest keep their order; an index past the end changes nothing; no other field changes |
| AdminCreateOrderPage.CreateOrderForm.ItemChange | src/pages/admin/AdminCreateOrderPage.jsx:73-87 | only that line's field changes, to the value as typed or, for a quantity, to its digits; no other field changes |
| AdminCreateOrderPage.CreateOrderForm.Validate | src/pages/admin/AdminCreateOrderPage.jsx:89-122 | records exactly the messages of the rules, and reports whether the form may be sent; the form, lists, loading flag and load error stay |
| AdminCreateOrderPage.CreateOrderForm.Submit | src/pages/admin/AdminCreateOrderPage.jsx:124-165 | records the rules' messages; sends the payload exactly for a valid form; reports creation, stock rejection, or the failure message; the form, lists, loading flag and load error stay |
| ProductFormModal.Title | src/components/ProductFormModal.jsx:103 | the title names the mode |
| ProductFormModal.PriceError | src/components/ProductFormModal.jsx:56-61 | "required" for empty text; otherwise a message exactly when the number is not positive |
| ProductFormModal.StockError | src/components/ProductFormModal.jsx:63-68 | "required" for empty text; otherwise a message exactly when the number is negative or NaN |
| ProductFormModal.ZeroPriceRefusedZeroStockAccepted | src/components/ProductFormModal.jsx:56-68 | a price of 0 is refused, a stock of 0 accepted |
| ProductFormModal.BlankStockAccepted | src/components/ProductFormModal.jsx:63-67 | a blank stock passes and is sent as 0 |
| ProductFormModal.NoErrorsIffAccepted | src/components/ProductFormModal.jsx:46-72 | no message exactly when name and description are not blank, the price is positive and the stock not negative |
| ProductFormModal.PayloadOf | src/components/ProductFormModal.jsx:80-85 | trimmed texts and the numbers read from the fields |
| ProductFormModal.PrefillFor | src/components/ProductFormModal.jsx:22-38 | edit mode with a product copies its fields (missing ones as empty text); otherwise every field is empty |
| ProductFormModal.PrefilledStockRoundTrip | src/components/ProductFormModal.jsx:28-32 | a prefilled stock reads back as the product's stock, and a non-negative one passes validation |
| ProductFormModal.ProductForm.constructor | src/components/ProductFormModal.jsx:10-17 | empty fields, no messages |
| ProductFormModal.ProductForm.OnOpen | src/components/ProductFormModal.jsx:19-42 | nothing while closed; on opening, the prefill and reset messages |
| ProductFormModal.ProductForm.SetFields | src/components/ProductFormModal.jsx:134-194 | only the fields change |
| ProductFormModal.ProductForm.Validate | src/components/ProductFormModal.jsx:46-72 | records exactly the rules' messages and reports whether the form is accepted |
| ProductFormModal.ProductForm.Submit | src/components/ProductFormModal.jsx:74-101 | records the rules' messages; sends the trimmed payload exactly for an accepted form; closes on success, else shows the failure message; a refused form leaves the submitting flag as it was |
| AdminClientDetailPage.Split | src/pages/admin/AdminClientDetailPage.jsx:175 | at least one piece, none containing a space |
| AdminClientDetailPage.JoinSplit | src/pages/admin/AdminClientDetailPage.jsx:175 | joining the pieces with spaces gives back the name |
| AdminClientDetailPage.SplitWord | src/pages/admin/AdminClientDetailPage.jsx:175 | a word followed by a space splits off as one piece |
| AdminClientDetailPage.SplitNoSpace | src/pages/admin/AdminClientDetailPage.jsx:175 | a word without spaces is one piece |
| AdminClientDetailPage.FirstLetters | src/pages/admin/AdminClientDetailPage.jsx:176-177 | a single piece gives its first letter, or nothing when empty; at most one letter per piece, and one per piece when none is empty |
| AdminClientDetailPage.FirstLettersAppend | src/pages/admin/AdminClientDetailPage.jsx:176-177 | the letters of a concatenation of pieces are the letters of each part in order, so each non-empty piece gives its first letter in order |
| AdminClientDetailPage.EmptyPieceHasNoLetter | src/pages/admin/AdminClientDetailPage.jsx:176-177 | an empty piece (from a double space) contributes no letter wherever it stands |
| AdminClientDetailPage.Initials | src/pages/admin/AdminClientDetailPage.jsx:173-180 | "??" without a name; otherwise the first min(2, n) of the n word letters, each upper-cased |
| AdminClientDetailPage.InitialsKeepFirstTwoWords | src/pages/admin/AdminClientDetailPage.jsx:173-180 | a name of three or more words gives the upper-cased first letters of its first two words |
| AdminClientDetailPage.LeadingSpaceIgnored | src/pages/admin/AdminClientDetailPage.jsx:173-180 | a space before the name does not change the initials |
| AdminClientDetailPage.InitialsComeFromWords | src/pages/admin/AdminClientDetailPage.jsx:173-180 | every initial is the upper-cased first letter of a word of the name, never a space |
| AdminClientDetailPage.InitialsOfTwoWords | src/pages/admin/AdminClientDetailPage.jsx:173-180 | a first and last name give their two upper-cased first letters |
| AdminClientDetailPage.Includes | src/pages/admin/AdminClientDetailPage.jsx:44-51 | the scan is true exactly when the word occurs somewhere in the text |
| AdminClientDetailPage.TierBadge | src/pages/admin/AdminClientDetailPage.jsx:33-61 | STANDARD without a tier; otherwise the upper-cased tier coloured by the first of GOLD, SILVER, PREMIUM, BRONZE it contains |
| AdminClientDetailPage.OrderStatusBadge | src/pages/admin/AdminClientDetailPage.jsx:64-87 | the four statuses get their French labels and colours; any other status is shown as-is, a missing one as "Inconnu" |
| AdminClientDetailPage.TotalOrders | src/pages/admin/AdminClientDetailPage.jsx:166 | the client's own count when present, else the number of fetched orders |
| AdminClientDetailPage.SegmentOfSlice | src/pages/admin/AdminClientDetailPage.jsx:347 | a run without white space or '@' is one `[^\s@]+` segment |
| AdminClientDetailPage.EmailCheckSound | src/pages/admin/AdminClientDetailPage.jsx:346-347 | an address the positional check accepts matches the pattern |
| AdminClientDetailPage.EmailCheckComplete | src/pages/admin/AdminClientDetailPage.jsx:346-347 | an address matching the pattern passes the positional check |
| AdminClientDetailPage.EmailCheckMatchesPattern | src/pages/admin/AdminClientDetailPage.jsx:346-347 | the check accepts exactly the addresses the pattern matches |
| AdminClientDetailPage.FieldErrors | src/pages/admin/AdminClientDetailPage.jsx:325-391 | required first; then the e-mail pattern and a phone of at least six characters |
| AdminClientDetailPage.FormAcceptedIff | src/pages/admin/AdminClientDetailPage.jsx:325-391 | the form is sent exactly when all fields are filled, the e-mail matches the pattern and the phone is long enough |
| AdminClientDetailPage.Prefill | src/pages/admin/AdminClientDetailPage.jsx:128-133 | each field is the client's value or empty text |
| AdminClientDetailPage.ClientDetail.constructor | src/pages/admin/AdminClientDetailPage.jsx:93-115 | nothing loaded, not editing, empty form |
| AdminClientDetailPage.ClientDetail.LoadClient | src/pages/admin/AdminClientDetailPage.jsx:120-144 | a loaded client is shown, prefilled and its form messages cleared; a null body leaves no client and the fixed error; a failure shows the fixed error and keeps what was there |
| AdminClientDetailPage.ClientDetail.LoadOrders | src/pages/admin/AdminClientDetailPage.jsx:146-156 | a list replaces the orders, a non-list empties them, a failure changes nothing |
| AdminClientDetailPage.ClientDetail.ToggleEdit | src/pages/admin/AdminClientDetailPage.jsx:273-284 | flips edit mode, clears the update error, resets the form to a loaded client |
| AdminClientDetailPage.ClientDetail.Cancel | src/pages/admin/AdminClientDetailPage.jsx:403-406 | leaves edit mode and clears the update error |
| AdminClientDetailPage.ClientDetail.Submit | src/pages/admin/AdminClientDetailPage.jsx:182-194 | only a valid form is sent; success replaces the client and leaves edit mode, failure keeps edit mode and shows the backend message or default |
| LoginPage.LoginFailureMessage | src/pages/LoginPage.jsx:24-29 | wrong credentials exactly for 401, the generic message otherwise |
| LoginPage.ForbiddenReadsDifferently | src/pages/LoginPage.jsx:26-28 | 403 ends a session restore but reads as a generic failure on the login form |
| LoginPage.RequiredErrors | src/pages/LoginPage.jsx:80-107 | a field's message exactly when it is empty |
| LoginPage.LoginForm.constructor | src/pages/LoginPage.jsx:11-18 | empty fields, no message |
| LoginPage.LoginForm.SetValues | src/pages/LoginPage.jsx:7-16 | before the first submit only the values change; afterwards each changed field gets its required message again (validation on change), an unchanged field keeps its message, and the messages stay exactly the required rules of the current values |
| LoginPage.RetypingAfterRefusedSubmit | src/pages/LoginPage.jsx:7-16 | after an empty submit, typing a user name removes its message and clearing it brings the message back |
| LoginPage.LoginForm.Submit | src/pages/LoginPage.jsx:20-31 | only filled-in credentials are sent, after clearing the message; every submit marks the form submitted, and the messages equal the required rules of the values; success leaves none, failure sets the message for its status |
| LoyaltyBadge.GetTierConfig | src/components/LoyaltyBadge.jsx:3-39 | PLATINUM, GOLD and SILVER each get their own settings exactly; everything else gets the basic ones |
| LoyaltyBadge.MatchingIsCaseSensitive | src/components/LoyaltyBadge.jsx:4-38 | lower-case names and a missing tier fall back to the basic settings |

## Left out

- Network calls, timers and React scheduling. Requests are parameters, and each effect
  runs to completion in one step. The cancellation flags of the effects are not
  modelled, so neither is a response arriving after unmount. The same goes for the
  300 ms search debounce of the product table (src/components/ProductList.jsx:29-52)
  and the 1.5 s redirect after an order is created.
- Navigation. Route changes appear only as the target path in `HandleLogout` and the
  guard's redirect. The back buttons and row clicks that only navigate are not modelled.
- Money and dates. The revenue, stock value and total-spent sums, currency formatting
  and date formatting work on floating point and `Intl`, and they only display values.
  Only the discount's sign is kept.
- CSS class strings. Badge and status colours are enumerations.
- `Js.Upper` and `Js.UpperChar` map only the ASCII letters. `toUpperCase` also
  upper-cases other letters.
- `JsNumber.ParseNumber` reads text as an exact rational. It does not model binary64
  rounding, overflow to Infinity, or the sign of zero. Hexadecimal, octal and binary
  literals are read without the rounding either.
- String lengths count characters, not UTF-16 code units. This affects the phone
  length rule for characters outside the Basic Multilingual Plane.
- `AdminOrdersPage.OrdersPage.Load` takes order and client bodies that are arrays or
  null. `ordersData || []` and `clientsData || []` keep any other object as it is, and
  the page's counts, paging and client labels then read it as a list, which a plain
  object does not support; that case is not modelled.
- `LoginPage.LoginForm.Submit`, `ProductFormModal.ProductForm.Submit`,
  `AdminCreateOrderPage.CreateOrderForm.Submit` and
  `AdminClientDetailPage.ClientDetail.Submit` model the submit handlers once the
  browser lets the submit event through. None of the forms sets `noValidate`, so the
  browser's own checks of the `type="email"` and `type="number"` inputs (with their
  `min` and `step`) run first and can stop a submission the handler would accept or
  refuse, for example a stock of "-1", a price of "0.001", a quantity of "0" or the
  address "a@b..c". Those browser checks are not modelled.
- `ProductList.StockLevelOf` and `ProductList.StockLabel` take a stock that is a
  number or null. A product without the field at all (`undefined`) compares false
  with `< 10` and reads "undefined · Dispo"; that case is not modelled.
- `MeOrderDetailPage.MeOrderDetail.RunEffect` takes a list body that is an array or
  null. A non-array object body would throw on `find`, and that case is not modelled.
- `AdminCreateOrderPage.CreateOrderForm.Submit` assumes a created order body. A null
  body would throw when its status is read, and the message would then come from that
  error.
- `AdminClientDetailPage.ClientDetail.Submit` assumes the update returns a client
  record.
- `AdminClientDetailPage.OrderStatusBadge` does not model JavaScript's prototype
  lookup. A status such as "toString" would find an inherited function in the label
  map.
- The remaining pages (dashboards, the customers, profile and payments pages) are not
  part of this model.
- `src/pages/LoginPage.test.jsx` expects messages and labels that differ from the
  page's code. The model follows the code.
