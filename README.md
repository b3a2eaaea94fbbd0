# mobile-store-client, modelled in Dafny

This project models the client logic of the mobile-store web storefront.
- **Session and token lifecycle.** `AuthProvider` logs in, logs out and restores the session at start. It schedules a silent refresh 30 s before the access token expires (at once when that is more than about 24.8 days away, as the host's timer cannot wait longer), and it refreshes or logs out when a call is refused.
- **`axiosSecure` client.** Its request interceptor attaches the bearer token. Its response interceptor turns a first 401 into one refresh and one replay.
- **Idle-logout hook.**
- **Shopping cart.** It is stored per user.
- **Page logic.** This covers the catalogue, the pagination strip, the admin product table, the admin order tables, the breadcrumb trail, the registration form, the admin product form, both "Manage Products" pages, the admin route guard and the profile page.

Each source file becomes one module:

| module | file(s) |
|---|---|
| `Common` | shared values: `Option`, the user and product records, and the `String.prototype` / `Array.prototype` operations the client relies on |
| `Timers` | the host's `setTimeout` / `clearTimeout` queue, as a value |
| `Interceptors` | `src/api/axiosInstance.js` |
| `Session` | `src/auth/AuthContext.js` |
| `IdleLogout` | `src/hooks/useIdleLogout.js` |
| `Cart` | `src/context/CartContext.js` |
| `Pagination` | `src/components/Pagination.js`, plus the page slice the tables share |
| `ProductList` | `src/pages/ProductList.js` |
| `AdminProducts` | `src/admin/AdminProducts.js` |
| `AdminOrders` | `src/admin/AdminOrders.js` and `src/pages/AdminOrders.js` |
| `Breadcrumb` | `src/components/Breadcrumb.js` |
| `Register` | `src/auth/Register.js` |
| `ProductForm` | `src/admin/AdminProductForm.js` |
| `ProductAdmin` | `src/admin/ProductAdmin.js` and `src/pages/ProductAdmin.js` |
| `AdminRoute` | `src/auth/AdminRoute.js` |
| `Profile` | `src/pages/Profile.js` |

The model follows the shape of the code.
- **Classes.** Code that updates state step by step is a class whose methods have `modifies` clauses: the auth provider, the interceptor client, the idle monitor, the cart provider, the registration form, the product form page and the profile page.
- **Functions.** Pure code, such as list updaters, validators and label formatting, is functions and lemmas.
- **Asynchronous flows.** Each flow is split at its first `await`. The starting method runs the synchronous part and records the request it sends in a `sent` log. The answer arrives later through an event method, such as `OnRefreshSucceeded` or `OnProfileFailed`.
- **Oracles.** The server, the clock, the token decoder, `Number(...)`, `decodeURIComponent` and `window.confirm` are parameters.
- **"Nothing else changes".** Method frames use field-level `modifies` clauses, so a method cannot touch a field outside its frame. Within its frame, each method's `ensures` gives every field, in every branch, either its new value or its old one. The exceptions are the handle counter of a timer queue and the request header that `Interceptors.Send` leaves behind.

Some behaviours of the code are easy to miss when reading it:
- **Refreshes are not coalesced.** Each 401, timer expiry or failed profile fetch issues its own refresh call (`Session.TwoFailuresTwoRefreshCalls`).
- **A late refresh answer is applied.** An answer that arrives after a logout repopulates the session (`Session.RefreshAnswerAfterLogout`). One that arrives while the logout request is still in flight is wiped by the teardown that follows it (`Session.RefreshAnswerDuringLogout`).
- **A restored session keeps sending its first refresh token.** The startup effect wires the first render's `tryRefreshToken` into the timer and the interceptors, and that closure reads `refreshToken || localStorage...` with the first render's `refreshToken`. Every later refresh of the chain therefore sends the refresh token found in storage at start, not the newer one (`Session.RestoredSessionResendsFirstToken`).
- **A 401 on the profile request costs four calls.** The response interceptor refreshes (which itself fetches the profile with the new token) and then replays the held request (`Session.UnauthorizedProfileReplayed`).
- **A long-lived token is refreshed at once.** `setTimeout` converts its delay to a signed 32-bit integer, so a refresh planned more than about 24.8 days ahead fires after 0 ms. Each refresh that brings another such token does the same again (`Session.LongLivedTokenRefreshedAtOnce`).
- **An undecodable token does not log out.** It only disables scheduling (`Session.PlanFor`).
- **The older login form cannot log in.** The form in `src/auth/Login.js`, which the router does not mount (`/login` shows `src/pages/Login.js`, which never calls `login`), calls `login` with one argument. That call always rejects, and the form does not await it, so its own error message never shows (`Session.LoginWithOneArgument`).
- **Admin rights come from the fetched profile.** The guard reads the roles of the fetched profile, not a claim decoded from the token (`AdminRoute.Guard`).
- **Admin pages use a different storage key.** The admin pages read a token from storage key `token`, while the session stores `accessToken`.
  - The pages that send with plain `axios` carry `Bearer <token>`. These are `src/admin/AdminProducts.js`, both `AdminOrders.js` files and `src/pages/ProductAdmin.js` (`AdminOrders.OrdersRequest`).
  - `src/admin/ProductAdmin.js` and `src/admin/AdminProductForm.js` send through `axiosSecure`. Its request interceptor, wired at start, replaces that header with `Bearer <accessToken>` whenever the stored access token is truthy (`Interceptors.AttachToken`). There `token` only gates the fetch (`ProductAdmin.AdminMount`) or writes a header that is then overwritten.
- **The admin "Manage Products" page can spin forever.** Without a stored `token` it never fetches, so it shows its loading indicator for good (`ProductAdmin.AdminLoadingUntilAnswer`).
- **The interceptor's refresh-failure branch cannot run.** The injected refresh callback never rejects, because `tryRefreshToken` catches its own failure. So that branch is unreachable with the callback the session injects. After a failed refresh, the replay goes out with the header `Bearer null` (`Interceptors.OnResponseError` models both branches for an arbitrary callback).

## Model

| member | source | states |
|---|---|---|
| Common.Norm | src/auth/AuthContext.js:30-35 | `x \|\| null`: only a truthy value is kept |
| Common.OrElse | src/auth/AuthContext.js:116 | `a \|\| b` |
| Common.OrText | src/admin/AdminProductForm.js:48-56 | `x \|\| d` with a string default: a truthy value is kept, anything else gives `d` |
| Common.Get | src/auth/AuthContext.js:31 | `localStorage.getItem`: the stored value, or null exactly when the key is absent |
| Common.Trim | src/auth/Register.js:27 | `trim()` yields a part of the string that neither starts nor ends with white space |
| Common.TrimInfix | src/auth/Register.js:27 | what `trim()` keeps is an infix, and everything it cuts from either end is white space |
| Common.HasVisibleIffNotBlank | src/admin/AdminProductForm.js:79 | a string is blank after `trim()` exactly when it has no visible character |
| Common.ToLower | src/admin/AdminProducts.js:57 | `toLowerCase` keeps the length and maps every character |
| Common.JsSlice | src/pages/Profile.js:90 | `slice` with out-of-range bounds clamped yields a contiguous part of the sequence |
| Common.Split | src/components/Breadcrumb.js:11 | `split` yields separator-free pieces that join back to the string |
| Common.SplitJoin | src/components/Breadcrumb.js:34 | `split` undoes `join` on separator-free pieces |
| Common.CeilDiv | src/pages/ProductList.js:242 | `Math.ceil(n / d)`: the fewest pages of `d` that hold `n` rows |
| Timers.Empty | src/auth/AuthContext.js:38 | no timer is pending at first |
| Timers.HostDelay | src/auth/AuthContext.js:65-67 | the wait the host gives a requested delay: the delay itself up to 2^31 - 1 ms, 0 from there to 2^32, never more than 2^31 - 1 |
| Timers.Arm | src/hooks/useIdleLogout.js:12-20 | `setTimeout` yields a fresh handle, pending with the host's wait for its delay, and leaves every other pending timer as it was |
| Timers.Cancel | src/hooks/useIdleLogout.js:9-10 | `clearTimeout` removes exactly that handle; a null handle changes nothing |
| Timers.Fire | src/auth/AuthContext.js:65-67 | a fired timer leaves the queue and nothing else changes |
| Interceptors.SecureClient.constructor | src/api/axiosInstance.js:7-15 | the client starts with no interceptor pair and no injected callbacks |
| Interceptors.SecureClient.Setup | src/api/axiosInstance.js:18-42 | every setup registers one more interceptor pair and injects the callbacks |
| Interceptors.RequestConfig.constructor | src/auth/AuthContext.js:115-117 | a request built with an `Authorization` header is not marked `_retry` |
| Interceptors.AttachToken | src/api/axiosInstance.js:31-34 | a truthy token read at send time becomes `Bearer <token>`; a falsy one leaves the header alone |
| Interceptors.OnResponseError | src/api/axiosInstance.js:44-68 | non-401 errors and retried requests pass through untouched; a first 401 marks `_retry`, refreshes once, then replays with `Bearer <getter()>` or logs out and rejects |
| Interceptors.Send | src/api/axiosInstance.js:30-68 | at most one refresh and one replay per request, a logout only when the refresh fails, success resolved unchanged, the replay carries the token read after the refresh |
| Session.Base64UrlToBase64 | src/auth/AuthContext.js:15 | the substitution keeps the length; every '-' becomes '+', every '_' becomes '/', every other character is kept |
| Session.Base64Alphabet | src/auth/AuthContext.js:15 | no '-' or '_' survives and every other character stays in place |
| Session.PayloadSegment | src/auth/AuthContext.js:14 | the second '.'-separated segment exists exactly when the token has a '.'; it is `split(".")[1]` and holds no '.' |
| Session.ParseJwt | src/auth/AuthContext.js:11-26 | a falsy token or one without a payload segment gives null; otherwise the decoded payload of the converted segment |
| Session.RefreshDelay | src/auth/AuthContext.js:54-57 | the delay is zero exactly when `exp*1000 - 30000 <= now`, otherwise it is the time left until 30 s before expiry |
| Session.PlanFor | src/auth/AuthContext.js:48-68 | a timer is armed only with a positive delay, and something is scheduled exactly when the token decodes to a truthy `exp` |
| Session.PlanCases | src/auth/AuthContext.js:50-63 | null token: nothing; `exp` more than 30 s ahead: a timer requested for exactly `exp*1000 - 30000 - now`; otherwise an immediate refresh |
| Session.AuthProvider.constructor | src/auth/AuthContext.js:29-38 | tokens read from storage (falsy ones as null), no user, loading, no timer, nothing sent |
| Session.AuthProvider.ClearRefreshTimer | src/auth/AuthContext.js:40-45 | afterwards no refresh timer is pending and the ref is empty |
| Session.AuthProvider.Teardown | src/auth/AuthContext.js:206-212 | tokens removed from state and storage, no user, no loading, no timer; the rest of the store is kept |
| Session.AuthProvider.BeginLogout | src/auth/AuthContext.js:196-205 | a truthy refresh token is sent in one logout call and the teardown waits for its answer; with none, no call and an immediate teardown |
| Session.AuthProvider.Logout | src/auth/AuthContext.js:194-213 | the current render's refresh token decides: a logout call with it and nothing else yet, or, without one, the immediate teardown |
| Session.AuthProvider.OnLogoutSettled | src/auth/AuthContext.js:199-212 | once the logout call settles, successful or not, the teardown runs |
| Session.AuthProvider.TryRefreshToken | src/auth/AuthContext.js:71-82 | with a refresh token in the closure's state or in storage, exactly one refresh call with it; without one, a logout and no call |
| Session.AuthProvider.ScheduleSilentRefresh | src/auth/AuthContext.js:48-68 | the previous timer is always cancelled; then nothing, one timer with the host's wait for the computed delay, or an immediate refresh, as `PlanFor` says |
| Session.AuthProvider.FetchProfile | src/auth/AuthContext.js:112-118 | one profile call with `Bearer <tokenToUse \|\| accessToken>`, which the wired request interceptor replaces by `Bearer <stored token>` when the stored token is truthy |
| Session.AuthProvider.Persist | src/auth/AuthContext.js:85-91 | both tokens are stored and set; nothing else in the store changes |
| Session.AuthProvider.Resume | src/auth/AuthContext.js:100-104 | scheduling as `PlanFor` says, then one profile call with `Bearer <token>`; an immediate refresh without a refresh token logs out before that call |
| Session.AuthProvider.Start | src/auth/AuthContext.js:131-159 | wires one more interceptor pair with the first render's callbacks; with both tokens stored it restores them, schedules and fetches the profile (an immediate refresh sends the first render's refresh token), otherwise loading ends with nothing sent |
| Session.AuthProvider.Login | src/auth/AuthContext.js:163-190 | rejects and changes nothing unless both tokens are truthy; otherwise stores both, wires the interceptors with the calling render's callbacks, schedules (an immediate refresh sends that render's refresh token if it had one) and fetches the profile |
| Session.AuthProvider.OnRefreshSucceeded | src/auth/AuthContext.js:83-104 | the new pair is stored and set, the interceptors re-wired, the refresh rescheduled for the new access token and the profile fetched with it; the chain keeps its closure's refresh token, and an immediate re-refresh with no refresh token at all logs out first |
| Session.AuthProvider.OnRefreshFailed | src/auth/AuthContext.js:105-108 | a failed refresh starts the chain's logout: a logout call with the closure's refresh token, or the immediate teardown |
| Session.AuthProvider.OnProfileLoaded | src/auth/AuthContext.js:119-120 | the user is set and loading ends |
| Session.AuthProvider.OnProfileFailed | src/api/axiosInstance.js:44-61 | a first 401 on a wired client is held by the interceptor for one replay; every failure starts one refresh call or, with no refresh token, logs out (the catch at src/auth/AuthContext.js:121-127) |
| Session.AuthProvider.OnProfileReplay | src/api/axiosInstance.js:57-61 | the held profile request goes out once more with `Bearer <token stored now>` |
| Session.AuthProvider.OnRefreshTimerFired | src/auth/AuthContext.js:65-67 | the expired timer runs the closure's `tryRefreshToken`: one refresh call with the closure's refresh token, or a logout |
| Session.AuthProvider.Unmount | src/auth/AuthContext.js:157 | the cleanup leaves no refresh timer pending |
| Session.AtMostOneRefreshTimer | src/auth/AuthContext.js:38-45 | at most one refresh timer is ever pending |
| Session.TwoFailuresTwoRefreshCalls | src/auth/AuthContext.js:71-82 | two refresh requests issue two refresh calls with the same token (no coalescing) |
| Session.RefreshAnswerAfterLogout | src/auth/AuthContext.js:83-91 | a refresh answer arriving after logout re-populates the session and the storage |
| Session.RefreshAnswerDuringLogout | src/auth/AuthContext.js:196-212 | a refresh answer arriving while the logout call is in flight is wiped by the teardown |
| Session.RestoredSessionResendsFirstToken | src/auth/AuthContext.js:71-72 | after a restore, refresh, success with a new pair and another timer expiry, both refresh calls carry the stored-at-start refresh token |
| Session.UnauthorizedProfileReplayed | src/api/axiosInstance.js:48-61 | a 401 on the restored profile request gives profile, refresh, profile with the new token, and the replay with it |
| Session.LongLivedTokenRefreshedAtOnce | src/auth/AuthContext.js:54-67 | a restored access token valid for 30 days, and the next one a refresh brings, each get a refresh timer the host fires after 0 ms |
| Session.LoginWithOneArgument | src/auth/AuthContext.js:163-166 | `login(token)`, as src/auth/Login.js:23 calls it, rejects for want of a refresh token and leaves no access token |
| Session.Published | src/auth/AuthContext.js:224-232 | the context value carries the provider's user, tokens and loading flag |
| Session.Property | src/auth/AuthContext.js:224-232 | a property the context value does not provide reads as undefined |
| IdleLogout.IdleMonitor.constructor | src/hooks/useIdleLogout.js:3-6 | an undefined timeout defaults to 120000 ms; no popup, no timers, no listeners |
| IdleLogout.IdleMonitor.ResetTimer | src/hooks/useIdleLogout.js:8-21 | both old timers are cancelled and only a fresh idle timer is pending |
| IdleLogout.IdleMonitor.Mount | src/hooks/useIdleLogout.js:23-30 | the listener is attached to all four events and the idle timer armed |
| IdleLogout.IdleMonitor.OnTimerFired | src/hooks/useIdleLogout.js:12-20 | the idle timer shows the popup and arms the logout timer with the same timeout; the logout timer calls `onTimeout` once |
| IdleLogout.IdleMonitor.OnUserEvent | src/hooks/useIdleLogout.js:26-28 | a listened event cancels a pending forced logout and re-arms the idle timer; others change nothing |
| IdleLogout.IdleMonitor.StayLoggedIn | src/hooks/useIdleLogout.js:41-44 | hides the popup and re-arms only the idle timer |
| IdleLogout.IdleMonitor.Unmount | src/hooks/useIdleLogout.js:32-38 | every listener detached and no timer left pending |
| IdleLogout.AtMostOneIdleTimer | src/hooks/useIdleLogout.js:8-21 | the idle and logout timers are never pending together |
| IdleLogout.IdleThroughBothPeriods | src/hooks/useIdleLogout.js:12-20 | staying idle through both periods logs out exactly once, with the popup showing |
| IdleLogout.ActivityDuringPopup | src/hooks/useIdleLogout.js:8-21 | activity during the popup cancels the forced logout but leaves the popup up |
| Cart.UserKey | src/context/CartContext.js:14 | `id ?? email ?? null`: an empty id is kept |
| Cart.CartKey | src/context/CartContext.js:24 | the storage key is `cart_` followed by the user key |
| Cart.CartKeyInjective | src/context/CartContext.js:24 | different users never share a storage key |
| Cart.Without | src/context/CartContext.js:53 | the lines of other products, in order; none of the removed id |
| Cart.Bump | src/context/CartContext.js:56-60 | the `map` keeps every line and its product and moves only the quantities of the id's lines by `delta` |
| Cart.DropEmpty | src/context/CartContext.js:66 | the `filter` keeps exactly the lines with a positive quantity, in order and with their multiplicity |
| Cart.BumpQuantity | src/context/CartContext.js:44-46 | bumping moves the id's total by `delta` per line of the id and no other total |
| Cart.WithoutQuantity | src/context/CartContext.js:53 | removing zeroes the id's total and keeps every other total |
| Cart.DropZeroes | src/context/CartContext.js:64-66 | dropping empty lines changes no total |
| Cart.AddItemSpec | src/context/CartContext.js:41-49 | the product's total grows by one and no other total changes; a known product keeps the ids and order, a new one is appended with quantity 1; the cart invariant holds |
| Cart.IncreaseSpec | src/context/CartContext.js:56-60 | the total of a present id grows by one, nothing else changes, the invariant holds |
| Cart.DecreaseSpec | src/context/CartContext.js:62-68 | the total of a present id drops by one (its line disappears at zero), nothing else changes, the invariant holds |
| Cart.RemoveSpec | src/context/CartContext.js:52-54 | no line of the id is left, every other total is kept, the invariant holds |
| Cart.Load | src/context/CartContext.js:19-26 | nobody signed in gives the empty cart; otherwise the saved cart, or empty when none is saved |
| Cart.CartProvider.constructor | src/context/CartContext.js:9-16 | an anonymous, empty cart |
| Cart.CartProvider.Save | src/context/CartContext.js:29-32 | the cart is stored under the signed-in user's key only |
| Cart.CartProvider.SetUser | src/context/CartContext.js:19-32 | a new user key loads that user's saved cart; the stale save of the same commit is overwritten by the next one |
| Cart.CartProvider.AddToCart | src/context/CartContext.js:34-50 | anonymous: a login prompt and no change; signed in: the `addToCart` updater, saved under the user's key and nowhere else |
| Cart.CartProvider.RemoveFromCart | src/context/CartContext.js:52-54 | the `removeFromCart` updater, saved under the user's key and nowhere else, invariant kept |
| Cart.CartProvider.IncreaseQuantity | src/context/CartContext.js:56-60 | the `increaseQuantity` updater, saved under the user's key and nowhere else, invariant kept |
| Cart.CartProvider.DecreaseQuantity | src/context/CartContext.js:62-68 | the `decreaseQuantity` updater, saved under the user's key and nowhere else, invariant kept |
| Cart.CartProvider.ClearCart | src/context/CartContext.js:70 | the cart becomes empty, saved under the user's key and nowhere else |
| Cart.CartSurvivesSignOut | src/context/CartContext.js:19-32 | a user who signs out and back in finds the cart they left |
| Pagination.Range | src/components/Pagination.js:12-14 | consecutive integers from `lo` to `hi` |
| Pagination.VisiblePages | src/components/Pagination.js:9-14 | the loop pushes exactly the window `max(1, cur-2) .. min(total, cur+2)` |
| Pagination.WindowShape | src/components/Pagination.js:9-14 | at most five consecutive pages, all within `1..total` and within 2 of the current one, including it when it is valid |
| Pagination.Render | src/components/Pagination.js:4-41 | nothing for zero pages; Prev disabled on page 1, Next disabled on the last page, one button per visible page |
| Pagination.ExactlyOneActive | src/components/Pagination.js:26-30 | for a valid current page exactly one button is active, the current one |
| Pagination.PageRows | src/admin/AdminOrders.js:13-16 | a page holds at most `size` rows |
| Pagination.PageRowsSpec | src/admin/AdminOrders.js:13-16 | from page 1 on, a page holds the next at most `size` rows in order, and is empty exactly past the last page |
| Pagination.RowOnItsPage | src/admin/AdminProducts.js:84-87 | every row appears on page `j / size + 1` at position `j % size` |
| ProductList.PageFrom | src/pages/ProductList.js:29 | a missing, zero or NaN `page` reads as 1 |
| ProductList.FiltersFrom | src/pages/ProductList.js:33-42 | each of the six filters is its query value or "" |
| ProductList.EntriesOfSpec | src/pages/ProductList.js:57-62 | the query names exactly the non-empty filters, in the fixed order, with their values |
| ProductList.BuildQuery | src/pages/ProductList.js:55-65 | the non-empty filters in order, then `page` and `pageSize=12` |
| ProductList.QuerySpec | src/pages/ProductList.js:55-65 | the last two entries are `page` and `pageSize`; every other entry is a non-empty filter |
| ProductList.AsObject | src/pages/ProductList.js:86 | the URL query as an object, key for key |
| ProductList.Prune | src/pages/ProductList.js:92-95 | exactly the properties whose value is neither "" nor undefined survive, unchanged |
| ProductList.OnFilterChange | src/pages/ProductList.js:84-98 | page reset to 1, new filters override the query, empty values dropped, other parameters kept |
| ProductList.OnSortChange | src/pages/ProductList.js:138-148 | page reset to 1, an empty sort removes `sort`, other parameters kept |
| ProductList.PageChange | src/pages/ProductList.js:243-248 | only `page` changes; every other parameter is kept verbatim |
| ProductList.InitialQuery | src/pages/ProductList.js:44-48 | without a truthy `page` the query is replaced by `page=1` alone |
| ProductList.CartActionFor | src/pages/ProductList.js:100-104 | go to the cart exactly when a cart line has the product's id |
| ProductList.CartActionAfterAdd | src/pages/ProductList.js:100-104 | after adding, the same button goes to the cart |
| ProductList.AfterFetch | src/pages/ProductList.js:68-78 | loading ends; failures give no products and total 0; missing fields default to empty and 0 |
| ProductList.TotalPages | src/pages/ProductList.js:242 | `ceil(total / 12)`: enough pages of 12 and no empty trailing page |
| AdminProducts.Filter | src/admin/AdminProducts.js:58-63 | exactly the products whose brand, model or category contains the query, in order and with their multiplicity |
| AdminProducts.Search | src/admin/AdminProducts.js:50-66 | a blank query shows all products; otherwise the lower-cased query filters |
| AdminProducts.SearchSpec | src/admin/AdminProducts.js:50-66 | the result is an order-preserving selection; a white-space query shows all; otherwise membership is exactly the match |
| AdminProducts.SearchCaseInsensitive | src/admin/AdminProducts.js:57 | upper- and lower-case spellings of a query give the same result |
| AdminProducts.UntrimmedQuery | src/admin/AdminProducts.js:57-62 | a trailing space is searched for literally |
| AdminProducts.TableFor | src/admin/AdminProducts.js:84-87 | page count, page rows, row numbers `start + i + 1`, pager shown only for more than one page |
| AdminProducts.TableSpec | src/admin/AdminProducts.js:84-87 | from page 1 on, each row's number is its position in the filtered list |
| AdminOrders.StatusClass | src/admin/AdminOrders.js:37-50 | one of the five badge classes |
| AdminOrders.StatusClassSpec | src/pages/AdminOrders.js:29-42 | the four known statuses in any ASCII case get their badge; anything else and a missing status get the neutral one |
| AdminOrders.StatusClassCaseInsensitive | src/admin/AdminOrders.js:38 | lower-casing the status first changes nothing |
| AdminOrders.OrdersRequest | src/admin/AdminOrders.js:18-26 | no truthy token, no request; otherwise `Bearer <token>` |
| AdminOrders.AfterFetch | src/pages/AdminOrders.js:10-26 | the server's list on success; the list as it was on failure or without a token |
| AdminOrders.TableFor | src/admin/AdminOrders.js:12-16 | page count `ceil(n/8)`, the page's slice, "No orders found" exactly for an empty page |
| AdminOrders.TableSpec | src/admin/AdminOrders.js:84-91 | from page 1 on, at most eight orders per page; "No orders found" exactly past the last page |
| AdminOrders.ListAll | src/pages/AdminOrders.js:66-73 | every order listed; "No orders found" exactly when there is none |
| Breadcrumb.NonEmpty | src/components/Breadcrumb.js:11 | `filter(Boolean)` keeps exactly the non-empty strings, in order and with their multiplicity |
| Breadcrumb.NonEmptyKeeps | src/components/Breadcrumb.js:11 | a list without empty strings is kept whole |
| Breadcrumb.Segments | src/components/Breadcrumb.js:11 | every segment is non-empty and free of '/' |
| Breadcrumb.SegmentsOfPath | src/components/Breadcrumb.js:11 | `/s1/.../sn` splits back into `s1 .. sn` |
| Breadcrumb.BuildPathExtends | src/components/Breadcrumb.js:34 | each crumb's path is the previous one plus `/segment` |
| Breadcrumb.BuildPathSegments | src/components/Breadcrumb.js:34 | following crumb `i` leads to a path of exactly the first `i+1` segments |
| Breadcrumb.Dashes | src/components/Breadcrumb.js:45 | dash replacement keeps the length |
| Breadcrumb.TitleCase | src/components/Breadcrumb.js:46 | capitalisation keeps the length |
| Breadcrumb.LabelShape | src/components/Breadcrumb.js:44-46 | a label has no dash, no lower-case letter at a word start, and the decoded text elsewhere |
| Breadcrumb.FormatSegment | src/components/Breadcrumb.js:36-47 | "product" gets the empty label, the segment after it "brand / model" once loaded, any other the decoded text with dashes as spaces and words capitalised (nothing when decoding throws) |
| Breadcrumb.IndexOf | src/components/Breadcrumb.js:16 | the first position of the value, or -1 exactly when absent |
| Breadcrumb.ProductToLoad | src/components/Breadcrumb.js:16-19 | the non-empty segment after the first "product", if any |
| Breadcrumb.ProductToLoadSpec | src/components/Breadcrumb.js:16-19 | a product is loaded exactly when the first "product" has a following segment, and that segment is the id |
| Breadcrumb.Crumbs | src/components/Breadcrumb.js:58-74 | one crumb per segment, labelled by `formatSegment`, linked by `buildPath` except the last |
| Breadcrumb.CrumbsSpec | src/components/Breadcrumb.js:58-74 | only the last crumb is unlinked, and crumb `i` links to exactly the first `i+1` segments |
| Register.Field | src/auth/Register.js:27 | `model[f] ?? ""` |
| Register.Problem | src/auth/Register.js:27-43 | only required inputs get errors, and a blank required input gets its own message |
| Register.ErrorMap.With | src/auth/Register.js:27-43 | recording a message changes that input's entry only |
| Register.IsEmptyIffNoErrors | src/auth/Register.js:47 | no entry exactly when the errors object is `{}` |
| Register.Errors | src/auth/Register.js:24-48 | each input's entry is its problem |
| Register.CheckRequired | src/auth/Register.js:37-43 | a required-only rule records the input's problem and nothing else |
| Register.CheckEmail | src/auth/Register.js:29-31 | the email rules record the email's problem and nothing else |
| Register.CheckPassword | src/auth/Register.js:33-35 | the password rules record the password's problem and nothing else |
| Register.Validate | src/auth/Register.js:24-48 | the recorded errors are `Errors(model)`, and the result is true exactly when none was recorded |
| Register.ValidIff | src/auth/Register.js:27-43 | valid exactly when every required input has a visible character, the email matches `\S+@\S+\.\S+` and the password has at least 6 characters |
| Register.AddressLine2Ignored | src/auth/Register.js:37-43 | `addressLine2` never affects validation |
| Register.BlankPasswordIsMissing | src/auth/Register.js:33-35 | a blank password is reported missing, whatever its length |
| Register.EmailExamples | src/auth/Register.js:30 | the pattern is unanchored; an address without a dot after '@' fails |
| Register.RegisterForm.constructor | src/auth/Register.js:7-19 | all nine inputs empty, no errors, no message |
| Register.RegisterForm.HandleChange | src/auth/Register.js:21-22 | only the named input changes |
| Register.RegisterForm.Submit | src/auth/Register.js:50-57 | publishes the errors and posts the form exactly when there are none |
| Register.RegisterForm.OnRegistered | src/auth/Register.js:58-59 | the server's answer is shown and the errors are cleared |
| Register.RegisterForm.OnRegisterFailed | src/auth/Register.js:60-62 | the server's message if truthy, else "Error during registration" |
| Register.SubmitGate | src/auth/Register.js:50-57 | a form is posted once exactly when it validates, never otherwise |
| ProductForm.Problem | src/admin/AdminProductForm.js:79-85 | only brand, model, price, category and image can have errors |
| ProductForm.FormErrors.Set | src/admin/AdminProductForm.js:73 | `{...errors, [f]: e}` changes that field's entry only |
| ProductForm.IsEmptyIffNoErrors | src/admin/AdminProductForm.js:88 | no entry exactly when the errors object is `{}` |
| ProductForm.Errors | src/admin/AdminProductForm.js:76-89 | each field's entry is its problem |
| ProductForm.Validate | src/admin/AdminProductForm.js:76-89 | the recorded errors are `Errors(form)`, true exactly when none |
| ProductForm.ValidIff | src/admin/AdminProductForm.js:79-85 | valid exactly when brand, model, category and image are not blank and the price is a positive number |
| ProductForm.UncheckedFieldsIgnored | src/admin/AdminProductForm.js:79-85 | description, color, storage and warranty never affect validation |
| ProductForm.ImageInputMissesMissingImage | src/admin/AdminProductForm.js:278-280 | with a category but no image, the image error is recorded yet the upload input is not styled invalid |
| ProductForm.ImageInputInvalidIff | src/admin/AdminProductForm.js:298-300 | with the corrected styling, the upload input is invalid exactly when the image is blank |
| ProductForm.EditDefaults | src/admin/AdminProductForm.js:47-57 | all nine fields, each the loaded value or "" |
| ProductForm.EditDefaultsKeepsPresent | src/admin/AdminProductForm.js:47-57 | a product with all fields present is shown as loaded |
| ProductForm.SaveTarget | src/admin/AdminProductForm.js:99-105 | edit mode: `put /product/<id>`; otherwise `post /product` |
| ProductForm.SaveTargetNamesProduct | src/admin/AdminProductForm.js:99-103 | different products are saved to different paths |
| ProductForm.ProductFormPage.constructor | src/admin/AdminProductForm.js:16-30 | empty form, no errors, not loading or saving |
| ProductForm.ProductFormPage.Mount | src/admin/AdminProductForm.js:35-67 | only edit mode starts loading the product |
| ProductForm.ProductFormPage.OnLoaded | src/admin/AdminProductForm.js:47-57 | the form takes the loaded values and loading ends |
| ProductForm.ProductFormPage.OnLoadFailed | src/admin/AdminProductForm.js:58-63 | loading ends and the form is kept |
| ProductForm.ProductFormPage.HandleChange | src/admin/AdminProductForm.js:70-74 | the field takes the value and only its error is emptied |
| ProductForm.ChangeHidesOnlyItsError | src/admin/AdminProductForm.js:73 | the edited field's error is hidden and every other error kept |
| ProductForm.ProductFormPage.OnImageUploaded | src/admin/AdminProductForm.js:142-145 | the uploaded path becomes the image URL |
| ProductForm.ProductFormPage.Submit | src/admin/AdminProductForm.js:92-107 | publishes the errors and sends the save only when there are none |
| ProductForm.ProductFormPage.OnSaved | src/admin/AdminProductForm.js:114-119 | back to `/admin-products`, no longer saving |
| ProductForm.ProductFormPage.OnSaveFailed | src/admin/AdminProductForm.js:115-119 | the page stays and saving ends |
| ProductAdmin.Blank | src/admin/ProductAdmin.js:86 | a form of exactly the given inputs, all empty |
| ProductAdmin.InputChange | src/admin/ProductAdmin.js:40-43 | the named input takes the value and every other input keeps its own |
| ProductAdmin.Filter | src/pages/ProductAdmin.js:74 | exactly the products with another id survive, in order and multiplicity |
| ProductAdmin.FilterIdempotent | src/admin/ProductAdmin.js:102 | deleting twice by one id removes nothing more |
| ProductAdmin.Received | src/admin/ProductAdmin.js:27 | `products \|\| []` |
| ProductAdmin.AdminMount | src/admin/ProductAdmin.js:36 | the products are fetched exactly when a truthy token is stored |
| ProductAdmin.IsFormValidIff | src/admin/ProductAdmin.js:55-60 | the add button is enabled exactly when brand, model, description and price are not blank after trim and an image is chosen |
| ProductAdmin.AdminSubmit | src/admin/ProductAdmin.js:55-83 | a multipart post is sent exactly for a valid form, with its four text values and the chosen image file |
| ProductAdmin.AdminDeleteClicked | src/admin/ProductAdmin.js:96-101 | a delete is sent exactly when confirmed |
| ProductAdmin.AfterAdminAdd | src/admin/ProductAdmin.js:85-88 | the returned product (or the form) is appended after the existing ones; the four inputs are emptied and the image cleared |
| ProductAdmin.AdminLoadingUntilAnswer | src/admin/ProductAdmin.js:31-36 | only an answer to the products request ends loading, so without a token the loading screen stays |
| ProductAdmin.AdminInputOnlyForm | src/admin/ProductAdmin.js:40-43 | a keystroke changes only its own input |
| ProductAdmin.AdminDeleteSpec | src/admin/ProductAdmin.js:96-102 | unconfirmed sends nothing; a successful delete leaves exactly the products with another id, in order |
| ProductAdmin.AdminFailureShown | src/admin/ProductAdmin.js:89-126 | each failure replaces the page by its own message |
| ProductAdmin.LegacyMount | src/pages/ProductAdmin.js:17-35 | the older page always fetches, token or not |
| ProductAdmin.LegacySubmit | src/pages/ProductAdmin.js:42-122 | the form is posted as it is exactly when brand, model, description and price, the `required` inputs, are all non-empty (white space counts) |
| ProductAdmin.LegacySubmitGate | src/pages/ProductAdmin.js:87-122 | the fresh blank form is not submitted; a form whose required inputs hold a space is |
| ProductAdmin.LegacyAddSpec | src/pages/ProductAdmin.js:52-59 | the form is appended after the existing products, and all five inputs are emptied |
| ProductAdmin.LegacyDeleteSpec | src/pages/ProductAdmin.js:74 | a successful delete leaves exactly the products with another id, in order |
| ProductAdmin.LegacyFailureShown | src/pages/ProductAdmin.js:60-82 | load, add and delete failures have different messages, each shown alone |
| ProductAdmin.LegacyAddRestoresDeleted | src/pages/ProductAdmin.js:52-74 | the add appends to the list it captured, so a delete finishing meanwhile is undone |
| AdminRoute.Guard | src/auth/AdminRoute.js:8-16 | loading shows the placeholder; no user, no roles or no exact "Admin" role redirects to "/"; otherwise the children |
| AdminRoute.GuardIsExact | src/auth/AdminRoute.js:13 | "admin" and "Administrator" are not "Admin" |
| AdminRoute.LoggedOutIsRedirected | src/auth/AdminRoute.js:13-14 | after a logout the guard redirects home |
| Profile.Heads | src/pages/Profile.js:88-89 | at most one character per word |
| Profile.NameInitials | src/pages/Profile.js:85-90 | at most two characters |
| Profile.Avatar | src/pages/Profile.js:85-91 | the name's initials when the full name is truthy, else the email's first character upper-cased |
| Profile.HeadsOfWords | src/pages/Profile.js:88-89 | non-empty words contribute their first characters, in order |
| Profile.InitialsOfWords | src/pages/Profile.js:85-90 | a name of single-space-separated words shows the first letters of the first two words |
| Profile.InitialsEmptyIffSpaces | src/pages/Profile.js:85-90 | the initials are empty exactly when the name is all spaces |
| Profile.StatusClass | src/pages/Profile.js:139-145 | delivered exactly for "captured", shipped exactly for "Shipped", pending otherwise |
| Profile.StatusText | src/pages/Profile.js:147 | the status, or "Pending" when falsy |
| Profile.StatusIsCaseSensitive | src/pages/Profile.js:139-147 | "Captured" is pending here and delivered in the admin table; a missing status shows "Pending" |
| Profile.TokenAsWritten | src/pages/Profile.js:13 | the context has no `token`, so the page's token is always undefined |
| Profile.Token | src/pages/Profile.js:13 | the corrected token is the session's access token |
| Profile.ProfilePage.constructor | src/pages/Profile.js:14-17 | no user, no orders, loading, no error |
| Profile.ProfilePage.Mount | src/pages/Profile.js:19-38 | no token: loading ends with "No login token found" and nothing sent; otherwise both requests with `Bearer <token>` |
| Profile.ProfilePage.OnFetched | src/pages/Profile.js:40-41 | the user and orders are set and loading ends |
| Profile.ProfilePage.OnFetchFailed | src/pages/Profile.js:42-54 | a 401 logs out with no error, any other failure sets the generic error; loading ends |
| Profile.ProfilePage.View | src/pages/Profile.js:60-76 | loader, error, login prompt or card, in that priority |
| Profile.SignedInAsWritten | src/pages/Profile.js:13-24 | a signed-in user's page sends nothing and shows "No login token found" |
| Profile.SignedIn | src/pages/Profile.js:19-41 | with the access token, both requests carry it and the card is shown |
| Profile.ExpiredSession | src/pages/Profile.js:45-48 | a 401 logs out once and shows no error |

## Left out

- Network, storage and timers are explicit state or parameters. Nothing is sent: each request is a log entry, and its answer is an event method or a parameter.
- Stale closures are modelled in four places: the cart's save effect, the older product page's add and delete, and the session's refresh chain. The chain's timer, refresh callback and logout read the `refreshToken` of the render that wired them (`closureRefresh`): the first render for the startup effect, the calling render for `login`. Logging out from the header or the profile page uses the current render.
- Session.AuthProvider.Login: a refresh chain of an earlier closure that is still in flight when `login` re-wires is treated as belonging to the new closure. The other fields those closures read (`accessToken` in `fetchProfile`) are taken from current state; they matter only when a refresh answer carries an empty access token.
- Session.AuthProvider.OnProfileFailed: the final `setLoading(false)` of `fetchProfile`'s catch, which runs only after the whole refresh has settled, is not modelled; loading ends with the refresh flow's own answer or teardown. The `.catch` that the startup effect attaches is not modelled either.
- Session.AuthProvider.Logout: the redirect to `/login` after the teardown reloads the page in the browser; the model keeps the same provider, so events after a teardown (such as a late refresh answer) act on it as if the page had stayed.
- React rendering, CSS classes other than status badges and the upload input's `is-invalid` class (`ProductForm.ImageInputInvalidAsWritten`, `ProductForm.ImageInputInvalid`), toasts, `window.location` redirects, scrolling, the drawer and the image preview's object URL are left out.
- `JSON.parse` / `JSON.stringify` round trips are the identity. `atob`, percent-decoding and `JSON.parse` of a token are one decoder parameter, and `decodeURIComponent` is another.
- `Number(...)` and `isNaN` are a parameter that yields an unbounded real. Floating-point rounding is not modelled.
- Case mapping (`toLowerCase` / `toUpperCase`) is ASCII only. Characters are Unicode scalar values, not UTF-16 code units, so `n[0]` of a name starting with an astral character differs.
- Fractional page numbers, and query keys that repeat in the URL, are not modelled.
- The order of keys in objects and query strings is not modelled, except the fixed filter order of the product query.
- ProductForm.ProductFormPage.OnImageUploaded: an upload answer without `imageUrl` (which would make `validate` throw on `undefined.trim()`) is not modelled; the path is always a string.
- ProductForm.EditDefaults: loaded numeric fields such as the price are treated as text.
- Interceptors.Send: several registered interceptor pairs count only as "at least one"; the argument that more pairs behave the same is in the member's comment, not proved.
- The toast of the interceptor's refresh-failure branch is left out.
- ProductAdmin.AfterAdminAdd: the image file's content and the multipart encoding are not modelled; the image is its name.

## Findings

| source | as written | input that shows it | evidently intended | confidence | as-written member | corrected member |
|---|---|---|---|---|---|---|
| src/pages/Profile.js:13 | `const { token, logout } = useAuth()` reads a `token` property the auth context never provides (src/auth/AuthContext.js:224-232) | any signed-in user, e.g. a context value with access token "a1" | use the session's `accessToken` | high (not executed) | Profile.SignedInAsWritten | Profile.SignedIn |
| src/admin/AdminProductForm.js:278-280 | the image upload input's `is-invalid` class follows `errors.category` | brand, model and price filled, category "Flagship", no image: the image error is recorded but the input is not marked | follow `errors.imageUrl`, whose message is rendered right below it (lines 298-300) | high (not executed) | ProductForm.ImageInputMissesMissingImage | ProductForm.ImageInputInvalidIff |
