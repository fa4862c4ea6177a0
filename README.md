# Sample-E-Commerce admin dashboard: the logic beneath the pages

This project is a Dafny model of the client-side logic of the Sample-E-Commerce admin dashboard, a React application. The model covers:

- **HTTP client wrapper** (`QueryClient`). It turns a path into a backend URL, attaches a bearer token from `localStorage` and a JSON body, and gates the response. On a 401 in a query read it clears the token.
- **Session state** of the auth provider (`Auth`). It holds the user, the initial-check flag, the last error and the token slot. The check, login, logout and register handlers each change that state in their own way.
- **Route guard and route table** (`ProtectedRoute`), plus the history-backed location hook (`RouterConfig`).
- **Record validators and form schemas** (`Schema`).
- **Page logic** (`ResponseShape`, `StockManagement`, `ProductCard`, `CouponCard`, `OrdersPage`, `CustomersPage`, `ProductsPage`, `CategoriesPage`, `AddProductDialog`, `AuthPage`). Each list page normalises the response body, then applies its search filter, stat counts, status badges, input gates and dialog resets.

The supporting modules are `Strings`, `Lists` and `JsValues`. `Strings` covers `startsWith`, `includes`, ASCII `toLowerCase`, `trim`, and integer-to-decimal with its inverse. `Lists` covers `filter` with its membership, order and counting facts. `JsValues` covers JavaScript values, truthiness, property reads, `String()` and `JSON.stringify` with a string round trip.

Modelling choices:

- **Fetches as parameters.** A fetch or axios promise is a parameter saying how it settles (`Fetched`, `AxiosResult`). Nothing performs I/O.
- **Classes for mutable state.** The token slot, the auth provider, the browser location, each page's list and the dialogs are classes. Their methods are proved against their contracts.
- **One handler per settlement.** Each TanStack mutation settles to a single `onSuccess` or `onError` call, taken as one atomic step.

Where the code does something a reader might not expect, the model follows the code:

- **An absolute URL is nested, not kept.** `apiRequest("http://h/api/x")` goes to `http://localhost:3000/api/http://h/api/x` (`QueryClient.AbsoluteUrlIsNested`).
- **The `path.startsWith("http")` branch is dead.** Every URL starts with the backend origin (`QueryClient.BackendUrlPrefix`).
- **"No token, no user" does not hold.** A login answered without a token signs the user in anyway. With an old token stored, the old token stays and is sent for the new user (`Auth.LoginWithoutToken`).
- **Queries without a query function.** The query client has no default query function. So the `useQuery` calls on the customers and products pages have none, and their data is absent. The model takes that data as an `Option` parameter.
- **Deleting a product does not refresh the products page.** The delete invalidates the "/api/products" query. The page's list, though, comes from a one-off axios call in an effect, so nothing refetches it.
- **Registering does not sign the user in.** It posts straight to `/api/users/create` and leaves the session anonymous (`AuthPage.RegisteredVisitorLandsOnBlankPage`).

## Model

| member | source | states |
|---|---|---|
| QueryClient.ThrowIfResNotOk | src/lib/queryClient.js:5-11 | resolves with the same response exactly when it is ok (2xx); otherwise rejects with the body text |
| QueryClient.ApiPath | src/lib/queryClient.js:35-37 | every normalised path starts with `/api` |
| QueryClient.BackendUrlPrefix | src/lib/queryClient.js:35-38 | every full URL starts with `http://localhost:3000/api`, so the `http` branch never fires |
| QueryClient.ApiPathIdempotent | src/lib/queryClient.js:35-37 | normalising twice gives the same path as normalising once |
| QueryClient.ApiPathKeepsApiPaths | src/lib/queryClient.js:35-37 | a url is used unchanged exactly when it starts with `/api`; any other url gets longer |
| QueryClient.BareApiSpellingIsDoubled | src/lib/queryClient.js:35-37 | a url starting `api` without the slash gets a second prefix: "api/orders" becomes "/api/api/orders" |
| QueryClient.LeadingSlashOptional | src/lib/queryClient.js:35-37 | `u` and `/u` give the same path `/api/u` (u not starting with `/` or `api`) |
| QueryClient.OrdersPathSpellings | src/lib/queryClient.js:35-38 | "orders", "/orders" and "/api/orders" all resolve to `http://localhost:3000/api/orders` |
| QueryClient.AbsoluteUrlIsNested | src/lib/queryClient.js:35-38 | a url starting with `http` is not preserved but placed under `http://localhost:3000/api/` |
| QueryClient.ApiPrefixIsTextual | src/lib/queryClient.js:35 | the `/api` test is textual: "/apiary" is taken as an API path |
| QueryClient.ReadJson | src/hooks/use-auth.jsx:42-45 | resolves with the parsed body exactly when a 2xx response with a JSON body arrived; a network failure rejects with the fetch error, a non-2xx status with the body text |
| QueryClient.ApiRequest | src/lib/queryClient.js:13-42 | URL is `BackendUrl(url)`; Content-Type JSON and credentials always set; Authorization present iff a non-empty token is stored, and equal to "Bearer " + token; body present iff data is truthy, and equal to `JSON.stringify(data)`; outcome is the response gate or the network rejection; the token slot is not written |
| QueryClient.GetQueryFn | src/lib/queryClient.js:44-79 | same URL as `apiRequest` for the key, same header rule, no method or body; the token is cleared iff the status is 401, then null for "returnNull" or an "Unauthorized" rejection; otherwise the gated JSON |
| JsValues.JsonStringRoundTrip | src/lib/queryClient.js:31 | `JSON.stringify` of a string is a quoted literal whose inside unescapes to the string |
| JsValues.ToJsStringOfString | src/hooks/use-auth.jsx:53 | a string token is stored verbatim by `setItem` |
| Auth.AuthProvider.constructor | src/hooks/use-auth.jsx:9-11 | starts with user null, loading true, no error |
| Auth.AuthProvider.CheckAuth | src/hooks/use-auth.jsx:18-39 | with no token: no request, user null; with one: a GET to `/api/users/get` with the bearer header; success sets user to the response, any failure removes the token and sets user null; loading always ends false |
| Auth.HandlerSettlement | src/hooks/use-auth.jsx:41-63 | the mutation resolves exactly when the request resolves with a non-nullish body; a nullish body rejects with the TypeError of reading the handler's first property; other rejections pass through |
| Auth.AuthProvider.OnLoginSuccess | src/hooks/use-auth.jsx:47-56 | a nullish response throws the `response.data` TypeError before any state changes; otherwise user becomes `response.data`, error cleared, token stored only when `response.token` is truthy (else left as it was), and the user query is invalidated |
| Auth.AuthProvider.OnLoginError | src/hooks/use-auth.jsx:57-62 | error set, token removed, user unchanged |
| Auth.AuthProvider.Login | src/hooks/use-auth.jsx:41-63 | POSTs to `/api/users/login` with the JSON body; a non-nullish body goes through the success handler; a rejection, or a nullish body whose `onSuccess` throws, goes through the error handler and the promise rejects; loading untouched |
| Auth.AuthProvider.OnLogoutSuccess | src/hooks/use-auth.jsx:74-78 | user null, token removed, cache cleared |
| Auth.AuthProvider.OnLogoutError | src/hooks/use-auth.jsx:79-84 | the same clearing as on success |
| Auth.AuthProvider.Logout | src/hooks/use-auth.jsx:65-85 | whatever the server answers, ends with user null, no token, cache cleared |
| Auth.AuthProvider.OnRegisterSuccess | src/hooks/use-auth.jsx:97-104 | user set to the response and error cleared; then a nullish body throws the `userData.token` TypeError with the token untouched, otherwise the token is stored only if one is returned |
| Auth.AuthProvider.OnRegisterError | src/hooks/use-auth.jsx:105-108 | error set; the token is not touched |
| Auth.AuthProvider.Register | src/hooks/use-auth.jsx:87-109 | POSTs to `/api/users/register`; a nullish body sets the user to it, then rejects with the TypeError recorded as the error; on any rejection the token is kept, unlike login |
| Auth.LoginThenRequest | src/hooks/use-auth.jsx:47-55 | a login answered with token t stores t, and the next products request carries "Bearer " + t |
| Auth.LoginWithoutToken | src/hooks/use-auth.jsx:49-54 | a login answered without a token sets the user and leaves the previously stored token (or none) in place |
| ProtectedRoute.Guard | src/lib/protected-route.jsx:10-28 | spinner iff loading; blank with one redirect to the target iff not loading and no user; the wrapped route, no redirect, iff not loading and a user |
| ProtectedRoute.SelectRoute | src/components/app-client.jsx:24-35 | the chosen child is the first in the table that matches the location (no earlier child matches), or `NotFound` when none matches |
| ProtectedRoute.Screen | src/lib/protected-route.jsx:10-28 | a redirect happens exactly on a guarded route with the check done and no user, and it is always a blank screen sent to the target; the spinner shows exactly on a guarded route while loading |
| ProtectedRoute.Follow | src/lib/protected-route.jsx:11-13 | following redirects ends either where it started or at the guard's target |
| ProtectedRoute.RootIsGuarded | src/components/app-client.jsx:25 | the guard's own redirect target "/" is a guarded route |
| ProtectedRoute.AuthIsOpen | src/components/app-client.jsx:33 | "/auth" selects the unguarded login page |
| ProtectedRoute.AnonymousOnGuarded | src/lib/protected-route.jsx:11-13 | on a guarded path an anonymous visitor gets a blank screen and a redirect to the target |
| ProtectedRoute.GuardedTargetTraps | src/lib/protected-route.jsx:11-13 | if the target is itself guarded, any number of redirects ends at the target |
| ProtectedRoute.AnonymousVisitorIsStuck | src/lib/protected-route.jsx:11-13 | as written, an anonymous visitor on any guarded page ends at "/" with a blank screen, never the login page |
| ProtectedRoute.CorrectedGuardReachesLogin | src/lib/protected-route.jsx:11-13 | with target "/auth", one redirect reaches the login page, which renders and redirects no further |
| ProtectedRoute.SignedInSeesPage | src/lib/protected-route.jsx:24-28 | a signed-in user sees the guarded page and is not redirected |
| RouterConfig.BrowserLocation.constructor | src/lib/router-config.js:8-10 | the initial location is the pathname, or "/" without a window |
| RouterConfig.BrowserLocation.Mount | src/lib/router-config.js:19-22 | with a window, the location is read from the pathname and the listener attached |
| RouterConfig.BrowserLocation.Teardown | src/lib/router-config.js:24-28 | the listener is detached; nothing else changes |
| RouterConfig.BrowserLocation.Navigate | src/lib/router-config.js:31-36 | forward entries are dropped, `to` pushed, the location becomes `to`; without a window nothing changes |
| RouterConfig.BrowserLocation.Traverse | src/lib/router-config.js:14-16 | a popstate copies the new current entry into the location while the listener is attached |
| RouterConfig.BackAfterTwoNavigations | src/lib/router-config.js:31-36 | after two navigations and one step back the first destination is shown again |
| ResponseShape.Normalise | src/pages/stock-management.jsx:47-57 | a bare array is taken, else an array under `data`, else `[]` |
| ResponseShape.NormaliseSuccess | src/components/products/add-product-dialog.jsx:61-71 | `data` is taken only when `success` is truthy; a bare array is taken; else `[]` |
| ResponseShape.NormalisersAgree | src/components/products/add-product-dialog.jsx:61-71 | the two normalisers differ only on objects whose `success` is falsy |
| ResponseShape.ErrorDescription | src/pages/categories.jsx:85-88 | the server's message, else the error's, else the fallback |
| ResponseShape.CollectionPage.Fetch | src/pages/stock-management.jsx:37-69 | loading ends false; a body gives the normalised list and no toast; a failure gives `[]` and the page's error toast |
| StockManagement.OpenPage | src/pages/stock-management.jsx:26-63 | the list starts empty and not loading, with the "Failed to load Products" toast |
| StockManagement.StockStatus | src/pages/stock-management.jsx:91-95 | "Out of Stock" iff quantity 0, "Low Stock" iff non-zero and at most 10, "In Stock" iff above 10 |
| StockManagement.StockColor | src/pages/stock-management.jsx:97-101 | the same three thresholds pick the three chip classes |
| StockManagement.ColorAgreesWithStatus | src/pages/stock-management.jsx:91-101 | two quantities share a colour exactly when they share a status |
| StockManagement.FilteredProducts | src/pages/stock-management.jsx:103-108 | only products from the list that match the search, never more than the list holds |
| StockManagement.LowStock | src/pages/stock-management.jsx:110-111 | only filtered products with quantity at most 10 |
| StockManagement.OutOfStock | src/pages/stock-management.jsx:112-113 | only filtered products with quantity 0 |
| StockManagement.InStock | src/pages/stock-management.jsx:158 | only filtered products with quantity above 10 |
| StockManagement.FilteredProductsSpec | src/pages/stock-management.jsx:103-108 | a product is kept iff the lowercased search occurs in its lowercased name, category or SKU; order kept; an empty search keeps all |
| StockManagement.StockListsNest | src/pages/stock-management.jsx:110-113 | out of stock is low stock filtered again, low stock a subsequence of the filtered list |
| StockManagement.StockCountsAddUp | src/pages/stock-management.jsx:156-159 | the in-stock count plus the low-stock count is the filtered count |
| StockManagement.StatusMatchesCards | src/pages/stock-management.jsx:110-113 | each product's status agrees with which stat card counts it |
| ProductCard.CardClass | src/components/products/product-card.jsx:4-12 | red class iff quantity 0, low-stock class iff 1..10 (or negative), active class iff above 10 |
| ProductCard.CardText | src/components/products/product-card.jsx:14-18 | the text is "Out of Stock" exactly when the quantity is 0; any other text is longer than its prefix |
| ProductCard.CardAgreesWithStockPage | src/components/products/product-card.jsx:4-18 | the card's class and text pick the same case as the stock page's status |
| ProductCard.CardTextShowsQuantity | src/components/products/product-card.jsx:16-17 | the quantity reads back from the "Low: " and "In Stock: " texts |
| CouponCard.ExpiredIsExpiringSoon | src/components/coupons/coupon-card.jsx:5-6 | expired implies expiring soon; soon but not expired iff now ≤ expiry ≤ now + 604800000 |
| CouponCard.BadgeColor | src/components/coupons/coupon-card.jsx:8-14 | red iff expired, orange iff soon, then green for "SAVE", blue for "WELCOME", purple otherwise |
| CouponCard.StatusText | src/components/coupons/coupon-card.jsx:16-20 | Expired > Expiring Soon > Active |
| CouponCard.StatusColor | src/components/coupons/coupon-card.jsx:22-26 | red iff expired, orange iff expiring soon but not expired, grey iff not expiring soon |
| CouponCard.ColorsFollowStatus | src/components/coupons/coupon-card.jsx:16-26 | the status colour and the badge colour agree with the status text case by case |
| CouponCard.UnparseableExpiryIsActive | src/components/coupons/coupon-card.jsx:5-6 | an invalid date compares false both ways, so the coupon shows as active |
| CouponCard.SaveWinsOverWelcome | src/components/coupons/coupon-card.jsx:10-12 | a code with both words gets green |
| OrdersPage.OpenPage | src/pages/orders.jsx:25-59 | the list starts empty and not loading; its error toast says "Failed to load Products" |
| OrdersPage.StatusBadge | src/pages/orders.jsx:87-100 | delivered, pending and shipped map to their labels and classes; any other status is shown verbatim |
| OrdersPage.UnknownStatusLabelsAreFaithful | src/pages/orders.jsx:97-98 | distinct unknown statuses never share a badge |
| OrdersPage.FilteredOrders | src/pages/orders.jsx:102-106 | only orders from the list that match the search |
| OrdersPage.FilteredOrdersSpec | src/pages/orders.jsx:102-106 | kept iff the search occurs in the customer name or id, case-insensitively; order kept |
| OrdersPage.StatusCountsBounded | src/pages/orders.jsx:149-198 | the pending, shipped and delivered counts never overlap and sum to at most the total |
| CustomersPage.FilteredCustomers | src/pages/customers.jsx:44-48 | absent exactly when the data is absent |
| CustomersPage.FilteredCustomersSpec | src/pages/customers.jsx:44-48 | kept iff the search occurs in the name or email, case-insensitively; order kept |
| CustomersPage.ActivePlusInactiveIsTotal | src/pages/customers.jsx:62-90 | active plus inactive equals the total, also with no data (all 0) |
| CustomersPage.NewThisMonth | src/pages/customers.jsx:105-112 | never more than the total, and 0 without data |
| CustomersPage.NewThisMonthSpec | src/pages/customers.jsx:105-112 | counts exactly those created in the current year and month, never one without a date, at most the total |
| CustomersPage.StatusLabel | src/pages/customers.jsx:180-182 | "Active" iff active, else "Inactive" |
| ProductsPage.OpenPage | src/pages/products.jsx:20-54 | the list starts empty and not loading, with the "Failed to load Products" toast |
| ProductsPage.FilteredProducts | src/pages/products.jsx:84-88 | only products from the list that match both the search and the category |
| ProductsPage.FilteredProductsSpec | src/pages/products.jsx:84-88 | kept iff the name contains the search and the category is "all" or equal; order kept |
| ProductsPage.UnfilteredIsIdentity | src/pages/products.jsx:84-88 | empty search and "all" keep the list unchanged |
| ProductsPage.CategoryNarrows | src/pages/products.jsx:86-87 | a chosen category admits only its own products |
| ProductsPage.CategoryOptions | src/pages/products.jsx:82 | the category names in order, or ["Other"] when there is no data |
| ProductsPage.NoCategoriesNoOptions | src/pages/products.jsx:82 | an empty list is truthy, so no options rather than "Other" |
| CategoriesPage.SaveDisabledSpec | src/pages/categories.jsx:207-209 | Save is disabled iff a create is pending or the name is all white space |
| CategoriesPage.FilteredCategories | src/pages/categories.jsx:135-137 | only categories from the list that have a name |
| CategoriesPage.FilteredCategoriesSpec | src/pages/categories.jsx:135-137 | kept iff it has a name containing the filter, case-insensitively; nameless ones never; an empty filter keeps exactly the named ones |
| CategoriesPage.CategoriesPage.constructor | src/pages/categories.jsx:23-28 | dialog closed, name empty, active flag true, list empty and loading |
| CategoriesPage.CategoriesPage.OnCreate | src/pages/categories.jsx:118-133 | a blank name gives the "Category name is required" toast and no request; otherwise the payload is the trimmed name and the flag |
| CategoriesPage.CategoriesPage.OnCreateSuccess | src/pages/categories.jsx:74-80 | dialog closed, name "", flag true, then the list refetched |
| CategoriesPage.CategoriesPage.OnCreateError | src/pages/categories.jsx:81-91 | error toast with the fallback chain ending "Failed to create category"; the dialog keeps its contents |
| CategoriesPage.CategoriesPage.OnDeleteSuccess | src/pages/categories.jsx:101-104 | toast, then the list refetched |
| CategoriesPage.CategoriesPage.OnDeleteError | src/pages/categories.jsx:105-115 | error toast with the fallback chain ending "Failed to delete category" |
| CategoriesPage.CategoriesPage.Cancel | src/pages/categories.jsx:196-200 | dialog closed and reset |
| CategoriesPage.PayloadNameIsTrimmed | src/pages/categories.jsx:129-132 | the sent name is non-blank and already trimmed |
| CategoriesPage.CreateGateMatchesSaveButton | src/pages/categories.jsx:120 | `onCreate` sends exactly when Save is enabled with nothing pending |
| AddProductDialog.Rejection | src/components/products/add-product-dialog.jsx:92-109 | accepted iff size ≤ 10485760 and type starts with "image/"; size reported before type |
| AddProductDialog.SizeLimitIsInclusive | src/components/products/add-product-dialog.jsx:92 | exactly 10 MiB is accepted, one byte more is not |
| AddProductDialog.SizeReportedFirst | src/components/products/add-product-dialog.jsx:92-109 | an oversized non-image reports "File too large" |
| AddProductDialog.AddProductDialog.constructor | src/components/products/add-product-dialog.jsx:36-51 | default form, no file or preview, categories loading with the strict normaliser |
| AddProductDialog.AddProductDialog.HandleFileSelect | src/components/products/add-product-dialog.jsx:88-120 | no file: nothing; a rejected file: its toast only; an accepted file becomes the selection |
| AddProductDialog.AddProductDialog.OnPreviewLoaded | src/components/products/add-product-dialog.jsx:115-117 | the preview becomes the data URL |
| AddProductDialog.AddProductDialog.OnAddSuccess | src/components/products/add-product-dialog.jsx:153-163 | products query invalidated, form reset, file and preview cleared, dialog closed |
| AddProductDialog.AddProductDialog.OnAddError | src/components/products/add-product-dialog.jsx:164-174 | error toast with the fallback chain ending "Failed to add product" |
| AddProductDialog.AddProductDialog.Reset | src/components/products/add-product-dialog.jsx:182-185 | form back to its defaults, no file, no preview, dialog closed, nothing invalidated |
| AddProductDialog.AddProductDialog.HandleCancel | src/components/products/add-product-dialog.jsx:181-186 | the same reset as success, without invalidation |
| AddProductDialog.FailedFlagDiscardsData | src/components/products/add-product-dialog.jsx:61-71 | `{success: false, data}` gives no categories here, though the plain normaliser takes them |
| Schema.ValidateUser | shared/schema.js:29-34 | accepted iff username and password are truthy, then returned unchanged; a nullish record throws the TypeError |
| Schema.ValidateProduct | shared/schema.js:36-41 | accepted iff name, price, category and sku are truthy |
| Schema.ValidateCustomer | shared/schema.js:43-48 | accepted iff name and email are truthy |
| Schema.ValidateOrder | shared/schema.js:50-55 | accepted iff customerName, total and items are truthy |
| Schema.ValidateCoupon | shared/schema.js:57-62 | accepted iff code, name, usageLimit and expiryDate are truthy and discount is not undefined |
| Schema.ValidateStoreSettings | shared/schema.js:64-69 | accepted iff storeName is truthy |
| Schema.CouponSchemaImpliesValidator | shared/schema.js:6-18 | whatever the coupon schema accepts, the coupon validator accepts unchanged |
| Schema.StoreSettingsSchemaImpliesValidator | shared/schema.js:20-26 | whatever the settings schema accepts, the settings validator accepts |
| Schema.ZeroDiscountPassesValidatorOnly | shared/schema.js:58 | discount 0 passes the validator but fails the schema's minimum of 1 |
| Schema.ZeroUsageLimitRejected | shared/schema.js:13-15 | usage limit 0 fails both |
| Schema.ZeroAmountsRejected | shared/schema.js:37 | price 0 rejects a product, total 0 an order |
| Schema.PriceStringZeroAccepted | shared/schema.js:37 | the string "0" is truthy and passes |
| AuthPage.RenderPage | src/pages/auth-page.jsx:30-33 | redirects home and renders nothing iff a user is present |
| AuthPage.HandleLogin | src/pages/auth-page.jsx:35-44 | navigates home only when the login mutation resolves; when it rejects, including a nullish body, it alerts the message or the fallback and does not navigate |
| AuthPage.HandleRegister | src/pages/auth-page.jsx:46-65 | a mismatch alerts and posts nothing; otherwise posts role "admin" and navigates on success or alerts on failure |
| AuthPage.RegisteredVisitorLandsOnBlankPage | src/pages/auth-page.jsx:58-60 | after registering, the home page shows the blank guard and redirects to "/" again |

## Findings

| source | as written | input that shows it | evidently intended | confidence | as-written member | corrected member |
|---|---|---|---|---|---|---|
| src/lib/protected-route.jsx:12 | an anonymous visitor is redirected to "/", which is itself a guarded route (src/components/app-client.jsx:25) | check finished, user null, location "/products": the guard redirects to "/" and renders nothing there, forever | redirect to the login page "/auth" | medium, not executed | ProtectedRoute.AnonymousVisitorIsStuck | ProtectedRoute.CorrectedGuardReachesLogin |

## Left out

- Network I/O. `fetch` and `axios` are not called. How each request settles is a parameter (`Fetched`, `AxiosResult`, and a boolean for the registration post).
- TanStack Query internals.
  - `invalidateQueries` is recorded as a list of keys, and `queryClient.clear()` as a flag.
  - A mutation's `isPending` is a field set when `onCreate` starts the mutation and cleared by its handlers.
  - `useQuery` data (customers, category options) is an `Option` parameter.
- React scheduling. `useEffect`, `useState` batching and re-rendering are left out. The caller invokes `CheckAuth`, `Mount` and `Fetch` once. The guard's redirect effect is part of its result.
- Concurrency between async handlers. Each settlement is one atomic step.
- JSX rendering, styles, and the pages and components outside the core. These are the dashboard, coupons and store-settings pages, the add-coupon dialog, the layout, and configuration.
- Mutations of the pages that the core does not name: the stock update, the order status update, the customer status toggle and the product delete.
- Floating point. Numbers are integers, so `.int()` in the schemas always holds. `parseFloat`/`parseInt` and the `FormData` body of the add-product request are not modelled.
- Unicode case mapping. `toLowerCase` maps ASCII letters only.
- Dates.
  - Coupon expiry is an integer millisecond timestamp, or `None` for an invalid date. One `now` stands for both `new Date()` and `Date.now()`.
  - A customer's `createdAt` is a (year, month) pair in the viewer's calendar.
  - `toLocaleDateString` is not modelled.
- `FileReader`. Only its completion (`OnPreviewLoaded`) is modelled.
- Zod internals: the email regex, date preprocessing beyond requiring a non-empty string, defaults, the stripping of unknown keys, and zod's own error messages.
- Malformed records. A list item missing a field that a filter lower-cases would throw. Records here always have their string fields.
- Route matching. Paths match by string equality. Route parameters, trailing slashes and the inner `<Route>` of the guard are not modelled.
- The mongoose schemas, which describe a server that is not part of this model.
- QueryClient.GetQueryFn: the query key's first element is taken to be a string; the `String(queryKey[0])` coercion of other values is not modelled.
- QueryClient.ReadJson: a body that does not parse as JSON rejects with one fixed message, not the engine's exact SyntaxError text.
- CategoriesPage.CategoriesPage.OnCreateSuccess: runs `fetchCategories()` to completion inside the success handler; in the source the refetch is not awaited and settles later.
- QueryClient.NetworkFailureMessage: "Failed to fetch" is one browser's wording of the TypeError; other browsers word it differently.
- RouterConfig.BrowserLocation.Navigate: the new pathname is `to` itself, which holds for a plain absolute path; relative paths, query strings and fragments are not resolved.
- Auth.AuthProvider: `error` holds the thrown Error's message rather than the Error object.
- Schema.CouponSchemaAccepts: `expiryDate` is required to be a non-empty string; whether it parses as a date is not checked.
- Schema.StoreSettingsSchemaAccepts: `contactEmail` is accepted as any string; the email format is not checked.
