# Mealy in Dafny

Mealy is a meal-ordering application. Customers order meals from the menu
of the day, caterers keep their meals and menus and work through the orders
placed for them, and admins manage users. It has two halves.

- A React frontend. It holds a session store (token and user), an HTTP
  helper, a role-based dashboard router with route guards, sign-in and
  sign-up screens, meal and menu editors, order lists and notifications.
- A Flask backend, present twice. `Backend/app.py` is a single-file
  application. `Backend/app/` is a newer application assembled from
  blueprints, with its own models, configuration, error classes and
  `roles_required` decorator.

This project models both halves and proves properties of the model.

- Frontend components whose state changes step by step are classes. Their
  fields are the component's React state cells.
- An async handler is split at its `await` into a `Begin…` method and a
  `Finish…` method. The outcome of the call it awaits is a parameter, so the
  state in between can be stated.
- Pure helpers (filters, label maps, path builders, dispatchers) are
  functions, each with lemmas about what it returns.
- Each backend is a class `App` whose field `db` holds every table as a map
  from primary key to row, plus the next key. Every route that writes is a
  method. Its contract gives the reply and the new tables, and it keeps the
  class invariant: fresh keys, unique columns, and (in `Backend/app.py`)
  references that resolve. Routes that only read are functions of the tables.
- The SQLAlchemy delete cascades declared in `Backend/app/models/` are
  functions on the tables, proved to leave no dangling reference.
- HTTP statuses are those of RFC 9110: 400 (section 15.5.1), 401 (15.5.2),
  403 (15.5.4), 404 (15.5.5) and 422 (15.5.21). The `Authorization` header
  is the Bearer scheme of section 2.1 of RFC 6750.

Where the code does something its surroundings do not expect, the model
follows the code and a lemma states the consequence. Examples:

- the session store reads `data.token`, but the backend sends `access_token`;
- the three dashboard dispatchers send an admin to different places;
- the two `ProtectedRoute` files redirect a visitor without a user to
  different pages;
- `Backend/app.py`'s `update_user` turns its own "Email already exists"
  error into a 400 with an empty message;
- the blueprint `add_menu_item` stores the same meal twice on one menu;
- the notification badge count drifts when an already-read notification is
  marked read again through the hook.

## Model

| member | source | states |
|---|---|---|
| Session.Restore | Frontend/src/contexts/AuthContext.jsx:19-28 | Both storage keys present: the token is restored, then the user. A stored "undefined" user makes `JSON.parse` throw before `setIsLoading(false)`; the state is the one left at the throw, with loading still set (React then unmounts the app, see "## Left out"). Otherwise loading ends and nothing else changes. |
| Session.Login | Frontend/src/contexts/AuthContext.jsx:30-70 | Success iff the reply is ok and carries a user. A failed fetch gives "Network error". A non-ok reply gives the server's message and leaves the state unchanged. An ok reply writes the storage keys and the state (an absent token is stored as the text "undefined"). |
| Session.Register | Frontend/src/contexts/AuthContext.jsx:72-106 | Success iff the reply is ok. A failure carries the server's message, or "Network error" when the fetch failed. No state is read or written. |
| Session.Logout | Frontend/src/contexts/AuthContext.jsx:108-118 | Both keys are removed and both fields nulled. The loading flag is kept. The result is never authenticated. |
| Session.AuthHeaders | Frontend/src/contexts/AuthContext.jsx:120-122 | An `Authorization: Bearer <token>` header exactly when a token is held, and no other header. |
| Session.IsAuthenticated | Frontend/src/contexts/AuthContext.jsx:132 | Authenticated iff the session's headers carry `Authorization` and a user is held. |
| Session.LogoutIdempotent | Frontend/src/contexts/AuthContext.jsx:108-118 | A second logout changes nothing. |
| Session.TokenWithoutUserIsNotAuthenticated | Frontend/src/contexts/AuthContext.jsx:19-28 | A stored token without a stored user: after mounting, the token is held and loading has ended, but `isAuthenticated` (line 132) is false. |
| Session.RestoreAuthenticates | Frontend/src/contexts/AuthContext.jsx:19-28 | Mounting yields an authenticated session iff storage holds a non-empty token and a real user. |
| Session.LoginWithoutTokenField | Frontend/src/contexts/AuthContext.jsx:42-53 | An ok body without `token` (the backend names it `access_token`): the login succeeds and the user is set, but the session is not authenticated. |
| Session.ReloadAfterLoginWithoutTokenField | Frontend/src/contexts/AuthContext.jsx:43-46 | After such a login, storage holds "undefined" under `token`. A reload then restores an authenticated session whose token is "undefined". |
| Session.LoginWithoutUserField | Frontend/src/contexts/AuthContext.jsx:43-68 | An ok body without `user`: the state and storage are written before the toast throws. The call reports "Network error", and the next mount effect throws in `JSON.parse` with loading still set (React then unmounts the app, see "## Left out"). |
| Session.AuthProvider.constructor | Frontend/src/contexts/AuthContext.jsx:15-17 | No user, token read from storage, loading. |
| Session.AuthProvider.RunMountEffect | Frontend/src/contexts/AuthContext.jsx:19-28 | The new state is `Restore` of the old. |
| Session.AuthProvider.DoLogin | Frontend/src/contexts/AuthContext.jsx:30-70 | The new state and the result are those of `Login`. |
| Session.AuthProvider.DoRegister | Frontend/src/contexts/AuthContext.jsx:72-106 | Success iff the reply is ok. A failure carries the server's message or "Network error". |
| Session.AuthProvider.DoLogout | Frontend/src/contexts/AuthContext.jsx:108-118 | The new state is `Logout` of the old. |
| ApiClient.RequestBody | Frontend/src/services/api.js:59 | A body is sent iff the data is truthy, and it is then `Stringify` of the data. Otherwise a definition of the `data ? JSON.stringify(data) : undefined` expression. |
| ApiClient.Stringify | Frontend/src/services/api.js:59 | No text for `undefined`. A string becomes a quoted literal whose body a JSON reader decodes back to the same string. An integer becomes its decimal text, and an object its given text. |
| ApiClient.EscapeChar | Frontend/src/services/api.js:59 | A character is written as itself iff it is not a quote, a backslash or a control character. Otherwise the text starts with a backslash escape. |
| ApiClient.EscapeCharRoundTrip | Frontend/src/services/api.js:59 | Decoding an escaped character followed by any text gives that character followed by the decoding of the text. |
| ApiClient.EscapedRoundTrip | Frontend/src/services/api.js:59 | A JSON reader recovers every string from the literal body `JSON.stringify` writes. |
| ApiClient.FetchHeaders | Frontend/src/services/api.js:18-25 | The keys are the caller's plus `Content-Type`, plus `Authorization` iff the token is truthy. The token's `Bearer` value overrides the caller's `Authorization`. The caller's `Content-Type` overrides the JSON default. Every other caller header is kept. |
| ApiClient.Settled | Frontend/src/services/api.js:32-47 | Resolves iff the response is ok and parses, and then with the parsed body. A non-ok response throws the body's truthy `message`, else "HTTP <status>". An ok response that does not parse throws the parse error. A rejection throws its own Error, or "Network error occurred" for a non-Error. |
| ApiClient.ApiService.constructor | Frontend/src/services/api.js:2-5 | The base URL defaults to "/api". No token. |
| ApiClient.ApiService.SetAuthToken | Frontend/src/services/api.js:7-9 | The token is replaced. |
| ApiClient.ApiService.ClearAuthToken | Frontend/src/services/api.js:11-13 | The token is cleared. |
| ApiClient.ApiService.Request | Frontend/src/services/api.js:15-48 | The URL is base plus endpoint. Fetch gets the caller's verb and body with `FetchHeaders` of the current token and the caller's headers. The promise settles as `Settled` of the fetch outcome. |
| ApiClient.ApiService.Get | Frontend/src/services/api.js:51-53 | GET with no body, at base plus endpoint. The headers are `FetchHeaders` of the token alone: the JSON content type, and `Bearer <token>` iff the token is truthy. The result is `Settled` of the outcome: the parsed data, or the thrown message. |
| ApiClient.ApiService.Post | Frontend/src/services/api.js:56-61 | POST with `RequestBody` of the data, at base plus endpoint. The headers are `FetchHeaders` of the token alone: the JSON content type, and `Bearer <token>` iff the token is truthy. The result is `Settled` of the outcome: the parsed data, or the thrown message. |
| ApiClient.ApiService.Put | Frontend/src/services/api.js:64-69 | PUT with `RequestBody` of the data, at base plus endpoint. The headers are `FetchHeaders` of the token alone: the JSON content type, and `Bearer <token>` iff the token is truthy. The result is `Settled` of the outcome: the parsed data, or the thrown message. |
| ApiClient.ApiService.Delete | Frontend/src/services/api.js:72-74 | DELETE with no body, at base plus endpoint. The headers are `FetchHeaders` of the token alone: the JSON content type, and `Bearer <token>` iff the token is truthy. The result is `Settled` of the outcome: the parsed data, or the thrown message. |
| ApiClient.ApiService.Patch | Frontend/src/services/api.js:77-82 | PATCH with `RequestBody` of the data, at base plus endpoint. The headers are `FetchHeaders` of the token alone: the JSON content type, and `Bearer <token>` iff the token is truthy. The result is `Settled` of the outcome: the parsed data, or the thrown message. |
| ApiClient.IdPath | Frontend/src/services/api.js:96-115 | The digits between prefix and suffix read back as the id. |
| ApiClient.MealPath | Frontend/src/services/api.js:96 | "/meals/" followed by digits that read back as the id. |
| ApiClient.MenuPath | Frontend/src/services/api.js:101 | "/menus/" followed by digits that read back as the id. |
| ApiClient.OrderPath | Frontend/src/services/api.js:105 | "/orders/" followed by digits that read back as the id. |
| ApiClient.MarkNotificationReadPath | Frontend/src/services/api.js:115 | "/notifications/<digits>/read", where the digits read back as the id. |
| ApiClient.PathBuildersInjective | Frontend/src/services/api.js:96-115 | Different ids never share a path. |
| ApiClient.FixedPathsAreNotIdPaths | Frontend/src/services/api.js:100-111 | No id path equals "/menus/today", "/orders/my", "/orders/all", "/orders/revenue" or "/orders/history". |
| DashboardRouting.Dispatch | Frontend/src/components/DashboardRouter.jsx:11-25 | No navigation while loading. Otherwise a replacing navigation: to "/login" for an unauthenticated session, else to the role's dashboard, or "/unauthorized" for any other role. |
| DashboardRouting.DispatchTargets | Frontend/src/components/DashboardRouter.jsx:11-25 | Every target is one of five paths. "/unauthorized" is chosen iff the session is authenticated and its role is none of the three. |
| CommonGuard.Guard | Frontend/src/components/common/ProtectedRoute.jsx:7-38 | Loading view while loading. No user: a replacing redirect to "/login" that carries the location. Content iff there is a user and either no list was given or the role is in it. "/unauthorized" iff a list was given and the role is not in it. |
| LayoutGuard.Guard | Frontend/src/components/layout/ProtectedRoute.jsx:10-38 | The same as the common guard, except that a visitor without a user is sent to "/". |
| GuardComparison.GuardsDifferOnlyWithoutUser | Frontend/src/components/layout/ProtectedRoute.jsx:28-31 | The two guards differ exactly on a settled session without a user. |
| AppRoutes.RouteByRole | Frontend/src/App.jsx:25-36 | "/customer" iff the role is customer, "/caterer" iff caterer or admin, "/login" otherwise. The session is not checked. |
| AppRoutes.RouteFor | Frontend/src/App.jsx:45-72 | Paths are compared in their canonical form (letters without case, trailing slashes dropped). "/", "/customer" and "/caterer" are guarded and every other path is public. "/" has no role list. Any unlisted path is the not-found page. |
| AppRoutes.TrimTrailingSlashes | Frontend/src/App.jsx:45-72 | A prefix of the path that ends in a character other than "/", or is a single character, and the dropped rest is all slashes. |
| AppRoutes.CanonicalOfPlainPath | Frontend/src/App.jsx:45-72 | A lower-case path without trailing slashes is its own canonical form. |
| AppRoutes.CanonicalIdempotent | Frontend/src/App.jsx:45-72 | Canonicalising twice is canonicalising once. |
| AppRoutes.RouteForCanonical | Frontend/src/App.jsx:45-72 | A path and its canonical form select the same route, so case and trailing slashes never change the route. |
| AppRoutes.LooseSpellings | Frontend/src/App.jsx:45-72 | "/Customer/" reaches the guarded customer dashboard and "//" the guarded dashboard router. |
| AppRoutes.DashboardAllowLists | Frontend/src/App.jsx:58-68 | "/customer" admits only customers, "/caterer" admits caterers and admins, and "/" admits anyone. |
| AppRoutes.RouterTargetsAdmitRole | Frontend/src/App.jsx:25-68 | For each of the three roles, the router's target is a guarded dashboard that admits that role. |
| IndexPage.Render | Frontend/src/pages/Index.jsx:5-28 | Loading view iff loading. Otherwise a replacing redirect: "/login" when unauthenticated, "/customer" for customers, "/caterer" for caterers and admins, "/login" for any other role. |
| DispatchComparison.AdminDestinations | Frontend/src/components/DashboardRouter.jsx:20-21 | An authenticated admin is sent to "/admin" by DashboardRouter.jsx but to "/caterer" by App.jsx and Index.jsx. |
| DispatchComparison.UnknownRoleDestinations | Frontend/src/components/DashboardRouter.jsx:22-24 | An unknown role is sent to "/unauthorized" by DashboardRouter.jsx but to "/login" by Index.jsx and App.jsx. |
| DispatchComparison.AppRouterMatchesIndex | Frontend/src/pages/Index.jsx:20-27 | For an authenticated session, Index.jsx redirects exactly where App.jsx's router does. |
| LoginPage.DashboardAfterLogin | Frontend/src/pages/auth/Login.jsx:32-35 | A target only for a success that carries a user: "/customer" iff the role is customer, "/caterer" for every other role. |
| LoginPage.SuccessfulLoginNavigates | Frontend/src/pages/auth/Login.jsx:32-35 | Every login that the session store reports as successful has a target, and an admin lands on "/caterer". |
| LoginPage.LoginScreen.constructor | Frontend/src/pages/auth/Login.jsx:11-15 | Empty email and password. Not loading. |
| LoginPage.LoginScreen.HandleChange | Frontend/src/pages/auth/Login.jsx:19-24 | Only the named field takes the new value. |
| LoginPage.LoginScreen.BeginSubmit | Frontend/src/pages/auth/Login.jsx:26-30 | Loading is set and the whole form is handed to `login`. |
| LoginPage.LoginScreen.FinishSubmit | Frontend/src/pages/auth/Login.jsx:32-38 | Navigates iff there is a dashboard target. Loading stays on only when a success without a user throws. |
| LoginCard.RedirectIfSignedIn | Frontend/src/components/auth/Login.jsx:18-22 | Redirects to "/" (replacing) iff settled, authenticated and with a user. |
| LoginCard.Render | Frontend/src/components/auth/Login.jsx:46-52 | The spinner is shown iff the session is loading. |
| LoginCard.LoginCardForm.constructor | Frontend/src/components/auth/Login.jsx:11-12 | Empty form. Not submitting. |
| LoginCard.LoginCardForm.HandleChange | Frontend/src/components/auth/Login.jsx:24-29 | Only the named field changes. |
| LoginCard.LoginCardForm.BeginSubmit | Frontend/src/components/auth/Login.jsx:31-35 | Submitting is set and the form is handed over. |
| LoginCard.LoginCardForm.FinishSubmit | Frontend/src/components/auth/Login.jsx:38-42 | Navigates to "/" iff the login succeeded. Submitting is cleared either way. |
| RegisterCard.RegisterForm.constructor | Frontend/src/components/auth/Register.jsx:12-18 | Empty fields with role "customer". Not loading. |
| RegisterCard.RegisterForm.HandleChange | Frontend/src/components/auth/Register.jsx:22-27 | Only the named field changes. |
| RegisterCard.RegisterForm.HandleRoleChange | Frontend/src/components/auth/Register.jsx:29-34 | Only the role changes. |
| RegisterCard.RegisterForm.BeginSubmit | Frontend/src/components/auth/Register.jsx:36-40 | Loading is set and the whole form goes to `register`. |
| RegisterCard.RegisterForm.FinishSubmit | Frontend/src/components/auth/Register.jsx:42-46 | Navigates to "/login" iff registration succeeded, never to a dashboard. Loading is cleared. |
| AuthScreen.LoginRequest | Frontend/src/pages/Auth.jsx:22-27 | The login call is made iff both fields are non-empty, and it carries them. |
| AuthScreen.RegisterRequest | Frontend/src/pages/Auth.jsx:29-34 | The register call is made iff email, password and role are all non-empty. |
| AuthScreen.EnabledButtonsCall | Frontend/src/pages/Auth.jsx:113-178 | For an enabled sign-in button the handler always builds the request. For an enabled create-account button it builds one iff a role is chosen, since the button does not look at the role. |
| AuthScreen.SignInDisabled | Frontend/src/pages/Auth.jsx:113 | Sign-in is disabled iff the page is loading or a click would not call `login`. |
| AuthScreen.CreateAccountDisabled | Frontend/src/pages/Auth.jsx:178 | With a role chosen, create-account is disabled iff loading or a click would not call `register`. With no role and both fields filled, it is enabled and a click calls nothing. |
| AuthScreen.AuthForms.constructor | Frontend/src/pages/Auth.jsx:15-20 | Empty login form. Empty register form with role "customer". |
| AuthScreen.AuthForms.SetLoginEmail | Frontend/src/pages/Auth.jsx:93 | Only the login email changes. |
| AuthScreen.AuthForms.SetLoginPassword | Frontend/src/pages/Auth.jsx:105 | Only the login password changes. |
| AuthScreen.AuthForms.SetRegisterEmail | Frontend/src/pages/Auth.jsx:139 | Only the register email changes. |
| AuthScreen.AuthForms.SetRegisterPassword | Frontend/src/pages/Auth.jsx:151 | Only the register password changes. |
| AuthScreen.AuthForms.SetRegisterRole | Frontend/src/pages/Auth.jsx:160-161 | Only the register role changes. |
| OrderRows.WithStatus | Frontend/src/pages/caterer/CatererDashboard.jsx:39 | Keeps no more rows than it is given. Every row kept is one of the input rows with the requested status. |
| OrderRows.WithStatusKeepsMatches | Frontend/src/components/caterer/OrderManagement.jsx:60-62 | Every input row with the requested status is kept. With the row above this is the filter's if-and-only-if. |
| OrderRows.WithStatusCounts | Frontend/src/components/caterer/OrderManagement.jsx:60-62 | Each row with the status is kept exactly as often as it occurs, and no other row is kept. So the caterer dashboard's pending count is the number of pending rows. |
| OrderRows.WithStatusIdempotent | Frontend/src/components/caterer/OrderManagement.jsx:60-62 | Filtering twice by one status gives what filtering once gives. |
| OrderRows.WithStatusIsSubsequence | Frontend/src/components/caterer/OrderManagement.jsx:60-62 | The rows kept appear in the order of the input. |
| OrderStatusPanel.StatusIcon | Frontend/src/components/order/OrderManagement.jsx:54-67 | An unknown status gets the grey clock. Every known status gets another tint. The cross icon is shown iff the order is cancelled. |
| OrderStatusPanel.StatusColor | Frontend/src/components/order/OrderManagement.jsx:69-82 | The grey colour is used iff the status is unknown. |
| OrderStatusPanel.StatusColorInjective | Frontend/src/components/order/OrderManagement.jsx:69-82 | Two known statuses with the same colour are the same status. |
| OrderStatusPanel.StatusActions | Frontend/src/components/order/OrderManagement.jsx:84-133 | Pending iff Confirm and Cancel buttons. Confirmed iff one Mark Complete button. Completed and cancelled iff a badge. Unknown iff no control. |
| OrderStatusPanel.Offered | Frontend/src/components/order/OrderManagement.jsx:84-133 | No button leads back to "pending". Completed, cancelled and unknown statuses offer nothing. |
| OrderStatusPanel.OfferedTransitions | Frontend/src/components/order/OrderManagement.jsx:88-120 | Pending offers exactly confirmed and cancelled. Confirmed offers exactly completed. |
| OrderStatusPanel.OfferedLowersRank | Frontend/src/components/order/OrderManagement.jsx:84-133 | Every offered step lowers the status rank, so the buttons admit no cycle. |
| OrderStatusPanel.RunRanks | Frontend/src/components/order/OrderManagement.jsx:84-133 | Along a run of button clicks the rank falls by at least one per click. |
| OrderStatusPanel.RunsAreShort | Frontend/src/components/order/OrderManagement.jsx:84-133 | A run of clicks has at most two steps and never returns to "pending". |
| OrderStatusPanel.OrderManagement.constructor | Frontend/src/components/order/OrderManagement.jsx:10-11 | No orders, loading. |
| OrderStatusPanel.OrderManagement.BeginLoad | Frontend/src/components/order/OrderManagement.jsx:13-16 | Loading is set. The list is kept. |
| OrderStatusPanel.OrderManagement.FinishLoad | Frontend/src/components/order/OrderManagement.jsx:17-27 | An array reply becomes the list, any other value the empty list, and a failure keeps the list. Loading ends in every case. |
| OrderStatusPanel.OrderManagement.UpdateOrderStatus | Frontend/src/components/order/OrderManagement.jsx:34-52 | The status update asked for. The list is reloaded iff the call succeeded, and `onOrderUpdate` is called iff it succeeded and was given. |
| CatererOrders.Filtered | Frontend/src/components/caterer/OrderManagement.jsx:60-62 | "all" keeps every row. Any other value keeps the rows with that status. |
| CatererOrders.FilteredExactly | Frontend/src/components/caterer/OrderManagement.jsx:60-62 | For a status filter, a row is shown iff it is an input row with that status. The rows keep their order. |
| CatererOrders.EmptyMessage | Frontend/src/components/caterer/OrderManagement.jsx:106 | Definition of the empty-list text: "No orders yet" for "all", else "No <status> orders". |
| CatererOrders.StatusVariant | Frontend/src/components/caterer/OrderManagement.jsx:45-58 | Each variant and the statuses that get it, both ways. Pending and unknown statuses share "secondary". |
| CatererOrders.RowActions | Frontend/src/components/caterer/OrderManagement.jsx:131-160 | Pending iff Confirm Order and Cancel. Confirmed iff Mark Complete. No button otherwise. |
| CatererOrders.SameTransitionsAsOrderPanel | Frontend/src/components/caterer/OrderManagement.jsx:131-160 | The caterer's buttons lead to exactly the statuses the order panel offers, for every status. |
| CatererOrders.CatererOrderList.constructor | Frontend/src/components/caterer/OrderManagement.jsx:11-13 | No orders, loading, filter "all". |
| CatererOrders.CatererOrderList.SetFilter | Frontend/src/components/caterer/OrderManagement.jsx:87 | Only the filter changes. |
| CatererOrders.CatererOrderList.BeginLoad | Frontend/src/components/caterer/OrderManagement.jsx:19-21 | Loading is set. The list and filter are kept. |
| CatererOrders.CatererOrderList.FinishLoad | Frontend/src/components/caterer/OrderManagement.jsx:22-28 | A reply stores its data, or the empty list when the data is null. A failure keeps the list. Loading ends. |
| CatererOrders.CatererOrderList.UpdateOrderStatus | Frontend/src/components/caterer/OrderManagement.jsx:31-43 | The status update asked for. Reload iff it succeeded. `onStatsUpdate` is called iff it succeeded and was given. |
| CustomerDashboard.RecentOrders | Frontend/src/pages/customer/CustomerDashboard.jsx:155 | The first five orders, or all of them when there are fewer. |
| CustomerDashboard.BadgeVariant | Frontend/src/pages/customer/CustomerDashboard.jsx:164-167 | "default" iff completed, "secondary" iff pending, "destructive" for every other status. |
| CustomerDashboard.CancelOffered | Frontend/src/pages/customer/CustomerDashboard.jsx:170-179 | Cancel is offered iff the row's badge is "secondary", which is iff the order is pending. |
| CustomerDashboard.CustomerDashboardView.constructor | Frontend/src/pages/customer/CustomerDashboard.jsx:13-16 | Empty menu and orders, loading, not ordering. |
| CustomerDashboard.CustomerDashboardView.BeginLoad | Frontend/src/pages/customer/CustomerDashboard.jsx:24-26 | Loading is set. Nothing else changes. |
| CustomerDashboard.CustomerDashboardView.FinishLoad | Frontend/src/pages/customer/CustomerDashboard.jsx:27-37 | When both requests resolve, each list is stored, or the empty list when its field is absent. A failure keeps both lists. Loading ends. |
| CustomerDashboard.CustomerDashboardView.BeginPlaceOrder | Frontend/src/pages/customer/CustomerDashboard.jsx:40-43 | Ordering is set. The body carries the card's menu item id. |
| CustomerDashboard.CustomerDashboardView.OrderButtonsDisabled | Frontend/src/pages/customer/CustomerDashboard.jsx:121 | Definition: the order buttons' `disabled` prop is the ordering flag that `BeginPlaceOrder` sets and `FinishPlaceOrder` clears. |
| CustomerDashboard.CustomerDashboardView.FinishPlaceOrder | Frontend/src/pages/customer/CustomerDashboard.jsx:44-53 | Ordering is cleared. Reload iff the order was placed. |
| CustomerDashboard.CustomerDashboardView.CancelOrder | Frontend/src/pages/customer/CustomerDashboard.jsx:56-68 | Deletes the given order. Reload iff it succeeded. |
| CatererDashboard.ComputeStats | Frontend/src/pages/caterer/CatererDashboard.jsx:39-46 | Total orders and meals are the list lengths. Pending orders are the pending rows, never more than the total. Revenue is `total`, or 0 when it is absent. |
| CatererDashboard.CatererDashboardView.constructor | Frontend/src/pages/caterer/CatererDashboard.jsx:16-22 | All four counters 0, loading. |
| CatererDashboard.CatererDashboardView.BeginLoad | Frontend/src/pages/caterer/CatererDashboard.jsx:30-32 | Loading is set. The stats are kept. |
| CatererDashboard.CatererDashboardView.FinishLoad | Frontend/src/pages/caterer/CatererDashboard.jsx:33-51 | When all three requests resolve, the stats are `ComputeStats` of them. A failure keeps the stats. Loading ends. |
| MealRecords.PriceText | Frontend/src/components/restaurant/MealManagement.jsx:105 | The decimal text of the price: digits that read back as the price, with a leading '-' when it is negative. |
| MenuManagement.IdList | Frontend/src/components/caterer/MenuManagement.jsx:33 | The meals' ids in order, one per meal. |
| MenuManagement.Distinct | Frontend/src/components/caterer/MenuManagement.jsx:33-34 | The same ids without repeats. |
| MenuManagement.DistinctIsSubsequence | Frontend/src/components/caterer/MenuManagement.jsx:33-34 | The distinct ids keep the order in which the meals list them. |
| MenuManagement.Added | Frontend/src/components/caterer/MenuManagement.jsx:45 | The id is present and no other membership changes. Adding an id already present changes nothing. No repeats are created. |
| MenuManagement.Deleted | Frontend/src/components/caterer/MenuManagement.jsx:47 | The id is absent and no other membership changes. No repeats are created. |
| MenuManagement.DeletedAbsent | Frontend/src/components/caterer/MenuManagement.jsx:47 | Deleting an absent id changes nothing. |
| MenuManagement.DeletedAfterAppend | Frontend/src/components/caterer/MenuManagement.jsx:45-47 | Deleting a just-added new id restores the selection. |
| MenuManagement.Toggle | Frontend/src/components/caterer/MenuManagement.jsx:42-50 | The id is selected iff the box is checked. No other id changes. No repeats are created. |
| MenuManagement.ToggleRoundTrip | Frontend/src/components/caterer/MenuManagement.jsx:42-50 | Repeating a toggle changes nothing. Checking then unchecking a new id restores the selection. Unchecking then checking an id moves it to the end. |
| MenuManagement.DatePart | Frontend/src/components/caterer/MenuManagement.jsx:56 | The longest prefix without 'T'. |
| MenuManagement.MenuEditor.constructor | Frontend/src/components/caterer/MenuManagement.jsx:11-15 | Empty lists and selection, loading, not saving. |
| MenuManagement.MenuEditor.BeginLoad | Frontend/src/components/caterer/MenuManagement.jsx:21-24 | Loading is set. Nothing else changes. |
| MenuManagement.MenuEditor.FinishLoad | Frontend/src/components/caterer/MenuManagement.jsx:25-39 | A success stores the meals. A menu object also stores today's meals and selects their distinct ids. A null menu keeps today's menu and the selection. A failure keeps everything. The selection never holds an id twice. |
| MenuManagement.MenuEditor.HandleMealToggle | Frontend/src/components/caterer/MenuManagement.jsx:42-50 | The selection becomes `Toggle` of the old one. Nothing else changes. |
| MenuManagement.MenuEditor.BeginSave | Frontend/src/components/caterer/MenuManagement.jsx:52-58 | Saving is set. The payload has today's date part and the selected ids, each once. |
| MenuManagement.MenuEditor.FinishSave | Frontend/src/components/caterer/MenuManagement.jsx:59-71 | Saving is cleared. Reload iff it succeeded. |
| MealForm.InitialFields | Frontend/src/components/restaurant/MealForm.js:54-61 | Blank for a new meal. Otherwise the meal's fields, with an empty image URL when it has none. |
| MealForm.Invalid | Frontend/src/components/restaurant/MealForm.js:67 | A form passes iff name, description and category are non-empty and the price is at least 1. |
| MealForm.HasId | Frontend/src/components/restaurant/MealForm.js:79 | A truthy `meal?.id` implies a meal with an id. A meal with an id that is not truthy has id 0. |
| MealForm.SaveRequest | Frontend/src/components/restaurant/MealForm.js:79-93 | The body is the form. PUT to the meal's path iff the meal has an id, else POST to "/meals". |
| MealForm.BlankFieldsInvalid | Frontend/src/components/restaurant/MealForm.js:67-74 | A blank form, the one a new meal starts with, does not pass validation. |
| MealForm.CompleteMealSubmits | Frontend/src/components/restaurant/MealForm.js:67-93 | A meal with every required field and a positive price passes validation as loaded, and is saved by PUT iff it has an id. |
| MealForm.MealDialog.constructor | Frontend/src/components/restaurant/MealForm.js:54-61 | The fields are `InitialFields` of the meal. Not loading. |
| MealForm.MealDialog.HandleChange | Frontend/src/components/restaurant/MealForm.js:117-122 | Only the edited field changes. |
| MealForm.MealDialog.BeginSubmit | Frontend/src/components/restaurant/MealForm.js:67-93 | No call iff the form is invalid. Otherwise loading is set and the call is `SaveRequest`. |
| MealForm.MealDialog.FinishSubmit | Frontend/src/components/restaurant/MealForm.js:95-114 | Loading is cleared. On success the form is reset and the parent notified. On failure the form is kept. |
| RestaurantMealManagement.EditFormFor | Frontend/src/components/restaurant/MealManagement.jsx:100-109 | The meal's name and description, no image, and a price text that reads back as the price. |
| RestaurantMealManagement.MealEditor.constructor | Frontend/src/components/restaurant/MealManagement.jsx:14-24 | No meals, loading, not saving, form closed. |
| RestaurantMealManagement.MealEditor.BeginLoad | Frontend/src/components/restaurant/MealManagement.jsx:30-32 | Loading is set. Nothing else changes. |
| RestaurantMealManagement.MealEditor.FinishLoad | Frontend/src/components/restaurant/MealManagement.jsx:33-44 | A reply becomes the list. A failure keeps it. Loading ends. |
| RestaurantMealManagement.MealEditor.OpenForm | Frontend/src/components/restaurant/MealManagement.jsx:234 | The form is shown. Nothing else changes. |
| RestaurantMealManagement.MealEditor.EditName | Frontend/src/components/restaurant/MealManagement.jsx:162 | Only the name changes. |
| RestaurantMealManagement.MealEditor.EditDescription | Frontend/src/components/restaurant/MealManagement.jsx:173 | Only the description changes. |
| RestaurantMealManagement.MealEditor.EditPrice | Frontend/src/components/restaurant/MealManagement.jsx:185 | Only the price text changes. |
| RestaurantMealManagement.MealEditor.ChooseImage | Frontend/src/components/restaurant/MealManagement.jsx:199 | Only the image changes. |
| RestaurantMealManagement.MealEditor.BeginSubmit | Frontend/src/components/restaurant/MealManagement.jsx:65-80 | Saving is set. An update of the edited meal's id iff a meal is being edited, else a create. The form is sent. |
| RestaurantMealManagement.MealEditor.FinishSubmit | Frontend/src/components/restaurant/MealManagement.jsx:81-97 | Saving is cleared. Success closes and resets the form and reloads. Failure keeps the form. |
| RestaurantMealManagement.MealEditor.HandleEdit | Frontend/src/components/restaurant/MealManagement.jsx:100-109 | The meal is being edited, the form is `EditFormFor` it, and the form is shown. |
| RestaurantMealManagement.MealEditor.Cancel | Frontend/src/components/restaurant/MealManagement.jsx:207-211 | The form is closed, reset and not editing. |
| RestaurantMealManagement.MealEditor.ToggleAvailability | Frontend/src/components/restaurant/MealManagement.jsx:47-63 | The call carries the meal id and the switch value. Reload iff it succeeded. |
| RestaurantMealManagement.MealEditor.HandleDelete | Frontend/src/components/restaurant/MealManagement.jsx:111-129 | A call iff confirmed, for that meal. Reload iff confirmed and it succeeded. |
| CatererMealManagement.SubmitData | Frontend/src/components/caterer/MealManagement.jsx:46-47 | The form's entries, except that "image" is dropped iff its value is falsy. |
| CatererMealManagement.SubmitDataIdempotent | Frontend/src/components/caterer/MealManagement.jsx:46-47 | Applying it twice gives what applying it once gives. |
| CatererMealManagement.ClearedImageNotSent | Frontend/src/components/caterer/MealManagement.jsx:46-47 | An emptied image, and the blank form's image, are never sent. |
| CatererMealManagement.EditFormFor | Frontend/src/components/caterer/MealManagement.jsx:67-75 | The blank form's keys, holding the meal's texts, no image, and a price text that reads back as the price. |
| CatererMealManagement.PreviewFor | Frontend/src/components/caterer/MealManagement.jsx:76 | The image URL iff it is truthy, else none. |
| CatererMealManagement.MealManager.constructor | Frontend/src/components/caterer/MealManagement.jsx:14-25 | No meals, loading, dialog closed and reset. |
| CatererMealManagement.MealManager.BeginLoad | Frontend/src/components/caterer/MealManagement.jsx:31-33 | Loading is set. Nothing else changes. |
| CatererMealManagement.MealManager.FinishLoad | Frontend/src/components/caterer/MealManagement.jsx:34-40 | A reply stores its data, or the empty list when it is null. A failure keeps the list. Loading ends. |
| CatererMealManagement.MealManager.SetDialogOpen | Frontend/src/components/caterer/MealManagement.jsx:130 | Only the dialog flag changes. |
| CatererMealManagement.MealManager.SubmitCall | Frontend/src/components/caterer/MealManagement.jsx:43-53 | An update of the edited meal iff one is edited, else a create. The data is `SubmitData` of the form. |
| CatererMealManagement.MealManager.FinishSubmit | Frontend/src/components/caterer/MealManagement.jsx:55-64 | Success closes and resets the dialog and reloads. `onStatsUpdate` is called iff it succeeded and was given. Failure keeps the dialog. |
| CatererMealManagement.MealManager.HandleEdit | Frontend/src/components/caterer/MealManagement.jsx:67-78 | The meal is being edited, the form is `EditFormFor` it, the preview is `PreviewFor` it, and the dialog opens. |
| CatererMealManagement.MealManager.HandleDelete | Frontend/src/components/caterer/MealManagement.jsx:80-91 | A call iff confirmed, for that meal. Reload iff confirmed and it succeeded. `onStatsUpdate` only then, and only when given. |
| CatererMealManagement.MealManager.HandleChange | Frontend/src/components/caterer/MealManagement.jsx:93-107 | The image input stores the first file, or nothing, with a preview iff there is a file. Any other input stores its text under its name and keeps the preview. |
| AdminDashboard.Without | Frontend/src/pages/admin/AdminDashboard.jsx:39 | Keeps no more rows than it is given. Every row kept is an input row whose id is not the deleted one. |
| AdminDashboard.WithoutKeepsOthers | Frontend/src/pages/admin/AdminDashboard.jsx:39 | Every input row with another id is kept. |
| AdminDashboard.WithoutCounts | Frontend/src/pages/admin/AdminDashboard.jsx:39 | Each row with another id is kept exactly as often as it occurs, and no row with the id remains. |
| AdminDashboard.WithoutAbsentId | Frontend/src/pages/admin/AdminDashboard.jsx:39 | Deleting an id no row has changes nothing. |
| AdminDashboard.WithoutIsSubsequence | Frontend/src/pages/admin/AdminDashboard.jsx:39 | The rows kept appear in the order of the input. |
| AdminDashboard.AdminView.constructor | Frontend/src/pages/admin/AdminDashboard.jsx:10-13 | Empty lists, the users tab, loading. |
| AdminDashboard.AdminView.SetTab | Frontend/src/pages/admin/AdminDashboard.jsx:62 | Only the tab changes. |
| AdminDashboard.AdminView.BeginLoad | Frontend/src/pages/admin/AdminDashboard.jsx:21-24 | Loading is set and "/users" is requested. The lists are kept. |
| AdminDashboard.AdminView.FinishLoad | Frontend/src/pages/admin/AdminDashboard.jsx:24-32 | Both lists are stored (empty when absent) iff both calls resolve. Otherwise both lists are kept. Loading ends. |
| AdminDashboard.AdminView.DeleteUser | Frontend/src/pages/admin/AdminDashboard.jsx:35-41 | A DELETE of "/users/<id>" iff confirmed. The user leaves the list iff confirmed and it succeeded. The meals are untouched. |
| AdminDashboard.AdminView.DeleteMeal | Frontend/src/pages/admin/AdminDashboard.jsx:43-49 | A delete of that meal iff confirmed. The meal leaves the list iff confirmed and it succeeded. The users are untouched. |
| NotificationStore.Unread | Frontend/src/hooks/useNotifications.js:27 | Keeps no more entries than it is given. Every entry kept is an input entry that is unread; the next three lemmas give the other half. |
| NotificationStore.UnreadKeepsUnread | Frontend/src/hooks/useNotifications.js:27 | Every unread entry of the list is kept. |
| NotificationStore.UnreadCounts | Frontend/src/hooks/useNotifications.js:27 | Each unread entry is kept exactly as often as it occurs and no read entry is, so the counter set from the length is the number of unread entries. |
| NotificationStore.UnreadIsSubsequence | Frontend/src/hooks/useNotifications.js:27 | The unread entries keep the order of the list. |
| NotificationStore.MarkedRead | Frontend/src/hooks/useNotifications.js:38-40 | Same length. Exactly the entries with that id become read, the rest are unchanged. |
| NotificationStore.AllRead | Frontend/src/hooks/useNotifications.js:55 | Same length, and each entry is the input entry marked read. |
| NotificationStore.Decremented | Frontend/src/hooks/useNotifications.js:41 | One less for a positive count, and 0 otherwise. Never negative. |
| NotificationStore.NoneUnreadAfterAllRead | Frontend/src/hooks/useNotifications.js:55-56 | After marking all read nothing is unread, so the counter's 0 is exact. |
| NotificationStore.MarkReadOfReadIsNoChange | Frontend/src/hooks/useNotifications.js:38-40 | Marking an id whose entries are all read already changes nothing. |
| NotificationStore.MarkReadOfUnreadDropsOne | Frontend/src/hooks/useNotifications.js:38-40 | With unique ids, marking an unread entry read shrinks the unread list by exactly one. |
| NotificationStore.CountStaysExact | Frontend/src/hooks/useNotifications.js:35-45 | With unique ids, an exact counter stays exact when an unread entry is marked read. |
| NotificationStore.CountDriftsOnReadTarget | Frontend/src/hooks/useNotifications.js:35-45 | Marking an already-read entry keeps the list but lowers a positive counter, which drifts one below the unread count. |
| NotificationStore.NotificationsHook.constructor | Frontend/src/hooks/useNotifications.js:15-17 | No entries, counter 0, not loading, consistent. |
| NotificationStore.NotificationsHook.BeginFetch | Frontend/src/hooks/useNotifications.js:20-25 | A request to "/notifications" iff there is a user, and only then loading is set. Entries and counter are kept. |
| NotificationStore.NotificationsHook.FinishFetch | Frontend/src/hooks/useNotifications.js:26-32 | A reply becomes the list with a matching counter. A failure keeps both. Loading ends. |
| NotificationStore.NotificationsHook.MarkAsRead | Frontend/src/hooks/useNotifications.js:35-45 | Patches that id's read path. On success the entries are `MarkedRead` and the counter `Decremented`. On failure nothing changes. |
| NotificationStore.NotificationsHook.MarkAllAsRead | Frontend/src/hooks/useNotifications.js:47-60 | One patch per entry unread at the call, in order. On success every entry is read, the counter is 0, and they agree. On failure nothing changes. |
| NotificationPanel.IconFor | Frontend/src/components/notifications/NotificationPanel.jsx:37-48 | Each of the three types gets its glyph and tint. Every other type gets the info icon. |
| NotificationPanel.BorderFor | Frontend/src/components/notifications/NotificationPanel.jsx:50-61 | Every type outside the three gets the info border. |
| NotificationPanel.BorderMatchesIcon | Frontend/src/components/notifications/NotificationPanel.jsx:37-61 | For every type the border has the icon's colour. |
| NotificationPanel.HeaderText | Frontend/src/components/notifications/NotificationPanel.jsx:80 | "<n> unread notifications" for a positive count. "All caught up!" iff the count is not positive. |
| NotificationPanel.RowClick | Frontend/src/components/notifications/NotificationPanel.jsx:119 | A mark of the row's id iff the row is unread. |
| NotificationPanel.ShowsMarkAll | Frontend/src/components/notifications/NotificationPanel.jsx:83-93 | The "Mark all read" button shows iff the header does not say "All caught up!". |
| NotificationPanel.ShowsNewBadge | Frontend/src/components/notifications/NotificationPanel.jsx:129-133 | The "New" badge shows iff a click on the row marks it read. |
| NotificationPanel.BodyFor | Frontend/src/components/notifications/NotificationPanel.jsx:98-108 | The spinner iff loading. The empty state iff settled with no entries. Otherwise every entry, in order. |
| NotificationPanel.PanelMarksKeepCountExact | Frontend/src/components/notifications/NotificationPanel.jsx:119 | With unique ids, every mark a row click issues keeps an exact counter exact. |
| CappedBadge.Render | Frontend/src/components/ui/notification-badge.tsx:11-21 | Only the children iff the count is not positive. Otherwise the count, or "<max>+" above the cap, which defaults to 99. |
| PlainBadge.Render | Frontend/src/components/ui/NotificationBadge.jsx:3-9 | Nothing but the children iff the count (default 0) is not positive. "99+" above 99. The count's digits otherwise. |
| PlainBadge.BadgesAgree | Frontend/src/components/ui/NotificationBadge.jsx:3-9 | On every count this badge renders what the other renders with its default cap. |
| Common.SetField | Frontend/src/pages/auth/Login.jsx:19-24 | The object gains the key if it lacked it. The key holds the new value and every other key keeps its value. |
| Common.OrEmpty | Frontend/src/components/caterer/OrderManagement.jsx:23 | Definition of the JavaScript `x \|\| []` primitive: a present list as it is, an absent one as the empty list. |
| Common.Decimal | Frontend/src/services/api.js:96 | At least one digit, and only digits. A leading zero only for 0 itself, as "0". |
| Common.DecimalRoundTrip | Frontend/src/services/api.js:96 | Reading the digits back gives the number. |
| Common.DecimalInjective | Frontend/src/services/api.js:96-115 | Different numbers have different texts. |
| Common.IntText | Frontend/src/components/notifications/NotificationPanel.jsx:80 | The text starts with a minus sign iff the number is negative. The digits after it read back as the number's magnitude. |
| Common.Lower | Backend/app/core/config.py:25 | Same length. Each ASCII capital becomes its small letter and every other character is kept. |
| ApiErrors.ToDict | Backend/app.py:60-64 | The payload's keys plus "message" and "status_code". Those two hold the error's own values, overriding the payload. Every other payload entry is copied. |
| ApiErrors.ToDictWithoutPayload | Backend/app/api/utils.py:12-16 | Without a payload the dictionary has exactly the two keys. |
| ApiErrors.ToDictStable | Backend/app.py:60-64 | Passing an error's own dictionary back as its payload gives the same dictionary. |
| ApiErrors.ErrorClassDefaults | Backend/app.py:53-80 | Each error class's default message and status: 422 "Validation error", 401 "Unauthorized access", 404, 403, and 400 for the base class. |
| Requests.GetOr | Backend/app/api/orders.py:26 | Definition of the Python `dict.get(key, default)` primitive: the value when the key is present, else the default. |
| Config.Getenv | Backend/app/core/config.py:9 | Definition of the Python `os.getenv(name)` primitive: a value iff the variable is set, and then its value. |
| Config.GetenvOr | Backend/app/core/config.py:15 | Definition of the Python `os.getenv(name, default)` primitive: the variable's value when it is set, even when empty, else the default. |
| Config.Or | Backend/app/core/config.py:9 | Definition of the Python `a or b` primitive: the left value when it is truthy, else the right one. |
| Config.ReplaceFirst | Backend/app/core/config.py:11 | A string that starts with the pattern has that prefix replaced and the rest kept. `ReplaceFirstAt` gives the general leftmost case. |
| Config.ReplaceFirstWithoutOccurrence | Backend/app/core/config.py:11 | A string without the pattern is kept. |
| Config.ReplaceFirstAt | Backend/app/core/config.py:11 | With the leftmost occurrence at position i, the result is the text before i, the replacement, and the text after the occurrence. |
| Config.RawDatabaseUrl | Backend/app/core/config.py:9 | `DATABASE_URL` when it is non-empty, else whatever `DATABASE_URI` is. |
| Config.DatabaseUrl | Backend/app/core/config.py:10-11 | A URL starting "postgres://" becomes "postgresql://" plus the same rest. Any other value is kept. |
| Config.DatabaseUri | Backend/app/core/config.py:13 | Definition of the `DATABASE_URL or 'sqlite:///mealy_app.db'` expression: the URL when it is non-empty, else the SQLite file. `DatabaseUriScheme` and `NoUrlMeansSqlite` state its properties. |
| Config.DatabaseUriScheme | Backend/app/core/config.py:9-13 | For every environment the URI never starts with "postgres://", and a rewritten URL keeps everything after the scheme. |
| Config.NoUrlMeansSqlite | Backend/app/core/config.py:13 | With both variables unset or empty the URI is "sqlite:///mealy_app.db". |
| Config.SecretKey | Backend/app/core/config.py:15 | The variable when set, else the development default. |
| Config.JwtSecretKey | Backend/app/core/config.py:16 | The variable when set, else the development default. |
| Config.MailUseTls | Backend/app/core/config.py:25 | On when unset. Otherwise on iff the lower-cased text is "true". |
| Config.MailUseTlsExactly | Backend/app/core/config.py:25 | For every environment, TLS is on iff the variable is unset or spells "true" in any mix of cases. Every other text turns it off, the empty one included. |
| Config.LowerIsTrue | Backend/app/core/config.py:25 | A text lower-cases to "true" iff it is "true" in some mix of cases. |
| Schema.RoleFromName | Backend/app/models/user.py:7-10 | A role iff the text is one of the three names, and that role's name is the text. |
| Schema.RoleNameRoundTrip | Backend/app/models/user.py:7-10 | Name then parse gives the role back. A text parses to a role iff it is that role's name. |
| Schema.InsertUser | Backend/app/models/user.py:18-21 | A row iff name, email and password are given. The role defaults to customer. |
| Schema.InsertMeal | Backend/app/models/restaurant.py:9-13 | A row iff name and price are given. The other columns are copied. |
| Schema.InsertMenu | Backend/app/models/restaurant.py:25-26 | A row iff a date is given. |
| Schema.InsertMenuItem | Backend/app/models/restaurant.py:38-39 | A row iff both keys are given. |
| Schema.InsertOrder | Backend/app/models/order.py:10-16 | A row iff user, meal and total price are given. Quantity defaults to 1 and status to "pending". |
| Schema.InsertNotification | Backend/app/models/delivery.py:10-13 | A row iff user and message are given. `read` defaults to false and the time is the insert's. |
| Store.FirstKey | Backend/app.py:109 | The smallest key in the range whose row matches, or none iff no key in the range matches. |
| Store.UserWithEmail | Backend/app.py:109 | A user with that email. None only when no user has it. |
| Store.MenuOn | Backend/app.py:637 | A menu on that date. None only when no menu has it. |
| Store.DeleteItems | Backend/app/models/restaurant.py:41 | The items go, and so do the orders that point at them. Everything else is kept exactly. |
| Store.DeleteMeal | Backend/app/models/restaurant.py:15 | The meal goes, with its items and their orders. Everything else is kept. |
| Store.DeleteMenu | Backend/app/models/restaurant.py:28 | The menu goes, with its items and their orders. Everything else is kept. |
| Store.DeleteUser | Backend/app/models/user.py:23-26 | The user goes, with their orders, notifications, meals and menus, the items of those meals and menus, and the orders of those items. Everything else is kept. |
| Store.DeleteOrder | Backend/app.py:1098-1102 | Only that order goes. |
| Store.DeleteItemKeepsLinks | Backend/app/models/restaurant.py:41 | Deleting an item leaves no dangling reference. |
| Store.DeleteMealKeepsLinks | Backend/app/models/restaurant.py:15 | Deleting a meal leaves no dangling reference. |
| Store.DeleteMenuKeepsLinks | Backend/app/models/restaurant.py:28 | Deleting a menu leaves no dangling reference. |
| Store.DeleteUserKeepsLinks | Backend/app/models/user.py:23-26 | Deleting a user leaves no dangling reference. |
| Store.DeleteOrderKeepsLinks | Backend/app/models/order.py:5-19 | Deleting an order leaves no dangling reference. |
| Store.CascadesKeepUniqueness | Backend/app/models/user.py:19 | The cascades keep emails, menu dates and menu-meal pairs unique. |
| LegacyApp.RolesRequired | Backend/app.py:104-119 | 401 "User not found" for an unknown caller. A caller whose role is listed passes. Any other caller gets 403 with the permission message. |
| LegacyApp.RolesRequiredRefusals | Backend/app.py:104-119 | Refusals are 401 or 403 only. An admin is refused by a list without admin, since no role implies another. |
| LegacyApp.Login | Backend/app.py:221-262 | 422 when email or password is missing. 200 with the token reply iff the email's user exists and the password matches. Otherwise 401 "Invalid credentials". |
| LegacyApp.GetUsers | Backend/app.py:265-273 | The decorator's refusal, or 200 for an admin with every user, before paging. |
| LegacyApp.GetUser | Backend/app.py:275-287 | 404 for an unknown user, then 500 for an unknown caller. 200 with the row iff the caller is that user or an admin. Otherwise 403. |
| LegacyApp.GetMeals | Backend/app.py:398-413 | 200 with every meal, before search and paging. |
| LegacyApp.GetMeal | Backend/app.py:416-444 | 200 with the row iff the meal exists, else 404. |
| LegacyApp.GetMenus | Backend/app.py:565-596 | 422 for an unreadable date. Otherwise 200 with the menus the query selects before paging: those on the date, or every menu without one. |
| LegacyApp.GetMenu | Backend/app.py:656-659 | 200 with the row iff the menu exists, else 404. |
| LegacyApp.GetMenuItems | Backend/app.py:779-782 | 404 for an unknown menu, else exactly the items of that menu. |
| LegacyApp.VisibleOrders | Backend/app.py:887-893 | An admin sees every order, a customer exactly their own, a caterer exactly the orders for items on their menus. |
| LegacyApp.GetOrders | Backend/app.py:847-899 | 500 for an unknown caller. Otherwise 200 with the orders the query selects before paging: the visible orders, narrowed to one status when a status is given. |
| LegacyApp.OwnerOrAdmin | Backend/app.py:336-337 | Passes only a known caller. A known admin always passes; any other known caller iff they are the row's owner. Also used at app.py:553, 705, 767, 794 and 835. |
| LegacyApp.EmailTaken | Backend/app.py:346 | True only when some user has the email, and, with fresh keys, whenever one does. Also used at app.py:188. |
| LegacyApp.OtherMenuOn | Backend/app.py:715-718 | With fresh keys, true only when some menu is on the date. When false, the first menu on the date, if any, is the edited menu itself. |
| LegacyApp.HasItem | Backend/app.py:805 | True iff the pair of menu and meal is one of the stored menu items. |
| LegacyApp.MayTouchOrder | Backend/app.py:982-987 | A customer may iff they own the order, an admin always. A caterer may only when the order's menu item exists and its menu is theirs, and the check throws exactly when the item exists but its menu does not. In a linked database it never throws. The same block is at app.py:1037-1042. |
| LegacyApp.GetOrder | Backend/app.py:973-989 | 404, then 500 for an unknown caller. 200 with the row iff the caller may see the order. Otherwise 403. |
| LegacyApp.CustomersSeeOnlyTheirOrders | Backend/app.py:982-983 | A customer who gets an order back owns it. |
| LegacyApp.GetNotifications | Backend/app.py:1109-1150 | 500 for an unknown caller. Otherwise 200 with the notifications the query selects before paging: the caller's own, narrowed by `read` when given, where a lower-cased "true" means read. |
| LegacyApp.GetNotification | Backend/app.py:1152-1163 | 404, then 500 for an unknown caller. 200 with the row iff the caller owns it. Otherwise 403. |
| LegacyApp.NewOrderMessage | Backend/app.py:959 | The caterer's message ends with the meal's name. |
| LegacyApp.StatusMessage | Backend/app.py:1058 | The customer's message has the meal's name starting at position 15, right after "Your order for ", and ends with the new status. |
| LegacyApp.EditedUser | Backend/app.py:343-352 | Each field given replaces the old one, each missing field is kept, and the role is the one decided by the caller's rights. |
| LegacyApp.EditedOrder | Backend/app.py:1047-1052 | Owner and item are kept. Only a customer's quantity is applied, repricing the order. Only a non-customer's status is applied. |
| LegacyApp.ReplacingKeepsUniqueEmails | Backend/app.py:345-348 | Writing a user whose email is theirs already, or no one's, keeps emails unique. |
| LegacyApp.ReplacingUserKeepsLinks | Backend/app.py:342-354 | Rewriting a user row keeps keys fresh and references resolved. |
| LegacyApp.ReplacingOrderKeepsLinks | Backend/app.py:1046-1063 | Rewriting an order with the same owner and item keeps keys fresh and references resolved. |
| LegacyApp.AddingOrderKeepsLinks | Backend/app.py:941-952 | A new order under the next key, for an existing user and item, keeps keys fresh and references resolved. |
| LegacyApp.AddingNotificationKeepsLinks | Backend/app.py:955-963 | A new notification under the next key, for an existing user, keeps keys fresh and references resolved. |
| LegacyApp.DeletingUserKeepsConsistent | Backend/app.py:389-392 | The user cascade keeps the database consistent. |
| LegacyApp.DeletingMealKeepsConsistent | Backend/app.py:556-559 | The meal cascade keeps the database consistent. |
| LegacyApp.DeletingMenuKeepsConsistent | Backend/app.py:770-773 | The menu cascade keeps the database consistent. |
| LegacyApp.DeletingItemKeepsConsistent | Backend/app.py:838-841 | Removing a menu item with its orders keeps the database consistent. |
| LegacyApp.DeletingOrderKeepsConsistent | Backend/app.py:1098-1102 | Removing one order keeps the database consistent. |
| LegacyApp.AddingMenuKeepsConsistent | Backend/app.py:636-646 | A menu on a date no menu has, by an existing caterer or by none, keeps the database consistent. |
| LegacyApp.AddingMealKeepsConsistent | Backend/app.py:497-509 | A meal by an existing caterer or by none keeps the database consistent. |
| LegacyApp.SameRecipientsKeepConsistent | Backend/app.py:1227-1229 | Rewriting notifications in place, each for its own user, keeps the database consistent. |
| LegacyApp.AddingItemKeepsConsistent | Backend/app.py:804-814 | An item pairing an existing menu with an existing meal not yet on it keeps the database consistent. |
| LegacyApp.App.constructor | Backend/app.py:37-38 | Empty tables, consistent. |
| LegacyApp.App.Register | Backend/app.py:151-218 | 422 for a missing email or password, 422 for a taken email, and a rewrapped 400 for an unknown role. 201 iff none of these, with one new user under the next key. Failures change nothing. |
| LegacyApp.App.UpdateUser | Backend/app.py:289-361 | 404, 500 and 403 as for reading. An email taken by another user gives 400 with an empty message. On 200 only that user's row changes, to the edited row. Failures change nothing. |
| LegacyApp.App.DeleteUser | Backend/app.py:363-396 | The decorator's refusal or 404. 200 iff an admin deletes an existing user, and the tables are then the user cascade. Failures change nothing. |
| LegacyApp.App.CreateMeal | Backend/app.py:446-519 | The decorator's refusal, then 422 for a missing name or price, then 422 for a missing image, then 400 for a failed upload or price. 201 iff none of these, with one new meal by the caller. |
| LegacyApp.App.DeleteMeal | Backend/app.py:521-563 | The decorator's refusal, 404, then 403 unless the caller is its caterer or an admin. On 200 the tables are the meal cascade. |
| LegacyApp.App.CreateMenu | Backend/app.py:598-654 | The decorator's refusal, 422 for a missing or unreadable date, 422 for a taken date. 201 iff none, with one new menu. Failures change nothing. |
| LegacyApp.App.UpdateMenu | Backend/app.py:661-734 | The decorator's refusal, 404 and 403. Then 422 for an unreadable date, and 400 with an empty message for a date another menu has. On 200 only that menu changes. |
| LegacyApp.App.DeleteMenu | Backend/app.py:736-777 | The decorator's refusal, 404 and 403. On 200 the tables are the menu cascade. |
| LegacyApp.App.AddMenuItem | Backend/app.py:784-822 | The decorator's refusal, 404 and 403. Then 422 without a meal id, 404 for an unknown meal, 422 for a meal already on the menu. 201 iff none, with one new item. |
| LegacyApp.App.RemoveMenuItem | Backend/app.py:824-845 | The decorator's refusal, 404 and 403. On 200 the item goes with its orders. |
| LegacyApp.App.CreateOrder | Backend/app.py:901-971 | The decorator's refusal, 422 unless both fields are truthy, 404 for an unknown item. 201 iff none, with one pending order priced by the meal, plus one unread notification for the menu's caterer when there is one. |
| LegacyApp.App.UpdateOrder | Backend/app.py:991-1070 | 404, 500, then 403 unless the caller may touch the order. On 200 only that order changes: a customer's quantity, or another caller's status. A closing status notifies the customer. |
| LegacyApp.App.DeleteOrder | Backend/app.py:1072-1107 | The decorator's refusal or 404. 200 iff an admin deletes an existing order, and only that order goes. |
| LegacyApp.App.MarkNotificationAsRead | Backend/app.py:1165-1204 | 404, 500, then 403 unless the caller owns it. On 200 only that notification becomes read. Repeating the call changes nothing. |
| LegacyApp.App.MarkAllNotificationsAsRead | Backend/app.py:1206-1235 | A rewrapped 400 for an unknown caller. Otherwise 200, and every notification of the caller is read while every other notification is unchanged. Only `read` changes. |
| BlueprintApp.Handled | Backend/app/__init__.py:65-79 | The error's own status, with a body of exactly "error" (the message) and "status_code". |
| BlueprintApp.HandledIgnoresPayload | Backend/app/__init__.py:65-79 | The payload never reaches the reply, and the key is "error" where `to_dict` says "message". |
| BlueprintApp.RolesRequired | Backend/app/api/decorators.py:6-16 | An unknown caller gets the handled 401 "User not found". A caller whose role name is listed passes. Any other caller gets a plain 403 message. |
| BlueprintApp.AdminNotImplied | Backend/app/api/decorators.py:14 | An admin is refused by a customers-only list and admitted by a list of caterer and admin. |
| BlueprintApp.Login | Backend/app/api/auth.py:100-111 | The handled 422 for a missing field. 200 with the token reply iff the user exists and the password matches. Otherwise the handled 401 "Invalid credentials". |
| BlueprintApp.GetUsers | Backend/app/api/users.py:10-23 | The decorator's refusal. Otherwise 200 for an admin with the users the query selects before paging: every user. |
| BlueprintApp.GetUser | Backend/app/api/users.py:25-33 | 404 for an unknown user, then 500 for an unknown caller. 200 with the row iff the caller is that user or an admin. Otherwise a 403 message. |
| BlueprintApp.GetOrders | Backend/app/api/orders.py:12-16 | 200 with every order, whoever asks. |
| BlueprintApp.GetOrder | Backend/app/api/orders.py:38-42 | 200 with the row iff the order exists, with no ownership check. Else 404. |
| BlueprintApp.OrderHistory | Backend/app/api/orders.py:63-69 | 500 for an unknown caller. Otherwise exactly the caller's orders. |
| BlueprintApp.HistoryWithinOrders | Backend/app/api/orders.py:12-16 | The history is part of the full list, and all of it when every order is the caller's. |
| BlueprintApp.GetMeals | Backend/app/api/restaurants.py:11-14 | 200 with every meal. |
| BlueprintApp.GetMeal | Backend/app/api/restaurants.py:16-19 | 200 with the row iff the meal exists, else 404. |
| BlueprintApp.GetMenus | Backend/app/api/restaurants.py:46-50 | 200 with every menu. |
| BlueprintApp.GetMenu | Backend/app/api/restaurants.py:65-68 | 200 with the row iff the menu exists, else 404. |
| BlueprintApp.GetMenuItems | Backend/app/api/restaurants.py:90-93 | Always 200, with exactly the items of that menu, so an unknown menu has none. |
| BlueprintApp.GetMenuToday | Backend/app/api/restaurants.py:117-125 | 404 "No menu for today" iff no menu has today's date. Otherwise 200 with a menu dated today. |
| BlueprintApp.DeletionsKeepUniqueness | Backend/app/models/user.py:19 | Deleting a user or a menu keeps emails and menu dates unique. |
| BlueprintApp.App.constructor | Backend/app/__init__.py:21-22 | Empty tables, which meet the invariant. |
| BlueprintApp.App.Register | Backend/app/api/auth.py:11-74 | The handled 422 for a missing email or password, for a taken email, and for a failed commit. 201 iff none, with one new user. A role text naming no role becomes customer. |
| BlueprintApp.App.UpdateUser | Backend/app/api/users.py:35-47 | 404 for an unknown user. 200 iff the email is no other user's and the role text names a role, and then only name, email and role change. Otherwise 500 and nothing changes. No caller check. |
| BlueprintApp.App.DeleteUser | Backend/app/api/users.py:49-56 | The decorator's refusal or 404. 200 iff an admin deletes an existing user, and the tables are then the user cascade. |
| BlueprintApp.App.CreateOrder | Backend/app/api/orders.py:18-36 | The decorator's refusal, 500 without an item id, 404 for an unknown item. 201 iff the item and its meal exist, with one pending order. Quantity defaults to 1 and the price is the meal's times the quantity. |
| BlueprintApp.App.UpdateOrder | Backend/app/api/orders.py:44-52 | 404 for an unknown order. Otherwise 200 and only the status changes, to any text given, whoever asks. |
| BlueprintApp.App.DeleteOrder | Backend/app/api/orders.py:54-61 | The decorator's refusal or 404. 200 iff an admin deletes an existing order, and only that order goes. |
| BlueprintApp.App.CreateMeal | Backend/app/api/restaurants.py:21-35 | The decorator's refusal, or 500 without name or price. 201 iff neither, with one new meal whose caterer id comes from the body. |
| BlueprintApp.App.DeleteMeal | Backend/app/api/restaurants.py:37-44 | The decorator's refusal or 404. 200 iff the meal exists, for any caterer or admin, and the tables are then the meal cascade. |
| BlueprintApp.App.CreateMenu | Backend/app/api/restaurants.py:52-63 | The decorator's refusal, or else 500 for any failure. 201 iff the date is given, readable and unused, with one new menu. |
| BlueprintApp.App.UpdateMenu | Backend/app/api/restaurants.py:70-79 | The decorator's refusal or 404. 200 iff any date given is readable and no other menu's, and then only that menu's date changes. Otherwise 500. |
| BlueprintApp.App.DeleteMenu | Backend/app/api/restaurants.py:81-88 | The decorator's refusal or 404. 200 iff the menu exists, and the tables are then the menu cascade. |
| BlueprintApp.App.AddMenuItem | Backend/app/api/restaurants.py:95-106 | The decorator's refusal, or 500 without a meal id. 201 iff a meal id is given, with one new item, whether or not menu and meal exist. |
| BlueprintApp.App.RemoveMenuItem | Backend/app/api/restaurants.py:108-115 | The decorator's refusal or 404. 200 iff the item exists, and it goes with its orders. |
| BlueprintApp.AddTwiceStoresTwo | Backend/app/api/restaurants.py:95-106 | Adding the same meal to the same menu twice succeeds twice and stores two distinct items with the same pair. |
| BackendGuards.Names | Backend/app/api/decorators.py:14 | One name per role, in order. |
| BackendGuards.NamesMembership | Backend/app/api/decorators.py:14 | A role is listed iff its name is among the names. |
| BackendGuards.GuardsAgree | Backend/app/api/decorators.py:6-16 | The two decorators admit the same callers and refuse with the same status. A known caller's refusal is an error dictionary in one and a plain message in the other. |

## Left out

- Browser and React plumbing is not modelled. `fetch`, `localStorage` reads, `toast`, `console`, `window.confirm`, `navigate` and `URL.createObjectURL` become parameters (call outcomes, confirm answers, the object URL) or recorded fields. JSX markup and styling are out.
- Components call `apiService` methods that `Frontend/src/services/api.js` does not define (`getOrders`, `getMeals`, `updateOrder`, `getCatererOrders`, `getDailyRevenue`, `createMeal`, `updateMeal`, `deleteMeal` and others). Each is modelled as a call whose outcome is a parameter. The files are not reconciled with one another.
- `Frontend/src/pages/Auth.jsx` calls `login` and `register` with positional arguments, while the session store takes one object. The model records the arguments the page passes and does not model what the store would make of them.
- `Frontend/src/App.jsx` imports `./components/ProtectedRoute`, a file that is not part of this model. The two guards that exist are modelled separately.
- `Promise.all` is one outcome: all calls succeed or the handler fails as a whole. Overlapping reloads, stale closures and other interleavings are not modelled.
- Prices, totals and revenue are integers. Floating point, `parseFloat` and `round(price * quantity, 2)` are not modelled, and no claim is made about rounding.
- Pagination, the `search` filter (`ilike`) and `order_by` are not modelled. A listing reply carries the set of keys of the rows its query selects before paging. The reply's `total` is the size of that set. Which rows fall on the requested page depends on the database's tie-breaking among equal dates and timestamps, so the model does not say.
- LegacyApp.GetMeals: states the meals before search and paging. The source returns one page of at most `per_page` meals (10 by default), filtered by `search`, in key order.
- LegacyApp.GetUsers: states every user before paging. The source returns one page of at most `per_page` users (10 by default), in key order.
- LegacyApp.GetMenus: states the menus the query selects before paging. The source returns one page of at most `per_page` menus (10 by default), newest date first.
- LegacyApp.GetOrders: states the visible orders before paging. The source returns one page of at most `per_page` orders (10 by default), newest first.
- LegacyApp.GetNotifications: states the caller's notifications before paging. The source returns one page of at most `per_page` notifications (10 by default), newest first.
- BlueprintApp.GetUsers: states every user before paging. The source returns one page of at most `per_page` users (10 by default), in key order.
- BlueprintApp.GetMeals: states the set of meal keys. The source lists every meal (`query.all()`), with row bodies and in the database's order; the model does not carry the order or the bodies.
- BlueprintApp.GetMenus: states the set of menu keys. The source lists every menu (`query.all()`); the order and the row bodies are not carried.
- BlueprintApp.GetOrders: states the set of order keys. The source lists every order (`query.all()`); the order and the row bodies are not carried.
- Session.Restore, Session.LoginWithoutUserField, Session.AuthProvider.RunMountEffect: an error thrown by the mount effect is modelled as the effect ending with `isLoading` still set. React itself has no error boundary above the provider in `Frontend/src` and unmounts the whole tree, so the app renders nothing rather than a loading view.
- LegacyApp.App.Register, LegacyApp.App.UpdateUser, BlueprintApp.App.UpdateUser: an unknown role text is modelled as a failed commit that changes nothing. That holds on a database that enforces the role enum, such as PostgreSQL's native enum type. On the SQLite fallback (`Config.NoUrlMeansSqlite`), SQLAlchemy's `Enum` stores the unknown text without a CHECK constraint, the row is committed, and only the reply fails: a 400 from `to_dict`'s `LookupError` in `Backend/app.py`, a 500 in the blueprint app.
- React Router's percent-decoding of the location path is not modelled. Route matching does model case-insensitive comparison and trailing slashes.
- Password hashing is the identity: a stored password is compared with the submitted one directly. Hashing is a foreign library. The `method` argument is not modelled either, so `LegacyApp.App.UpdateUser` does not return the 400 that Werkzeug 3's `ValueError` for `method='sha256'` (app.py:350) becomes through the `except`; `register` (app.py:192) passes the accepted `pbkdf2:sha256`.
- JWT creation and verification are out. A route receives the token's identity as a parameter, and the 401 that a missing token produces before the route runs is not modelled.
- The Cloudinary image upload and the SMTP `send_email` helpers are out. They are foreign services, and mail is sent after the state change the model states.
- `datetime.strptime` and `date.today()` are parameters: a `parse` function from text to an optional date, and the values `today` and `now`.
- A JSON body whose fields have the wrong type or are `null` is not modelled. A field is either absent or holds a value of the expected type.
- Exception texts the model does not compute are parameters: `driverError` in the blueprint app and `errorText` in `Backend/app.py`, where it also stands for an `AttributeError` text such as the one `mark_all_notifications_as_read` raises for an unknown caller. Foreign-key enforcement by the database is not modelled. The blueprint routes store a `caterer_id`, `menu_id` or `meal_id` without checking that the row exists, and the model does the same.
- Configuration reads from the environment are modelled for the database URL, the two secret keys and `MAIL_USE_TLS`. `MAIL_PORT` parsing and `MAIL_SERVER` are not modelled.
- The Cloudinary and mail account defaults in `Backend/app/core/config.py` (lines 18-24) are not reproduced, because they are credentials.
- Lower-casing covers ASCII letters only. Other characters are kept as they are.
- `Backend/app/models/order.py` (line 11) declares only a `meal_id` key on orders, so `MenuItem.orders` (`Backend/app/models/restaurant.py`, line 41) has no foreign key to join on, and the package's mappers cannot be configured as declared. The stored tables assume the key the routes use, `orders.menu_item_id → menu_items.id`, as `Backend/app/models.py` declares it at line 74. `Schema.InsertOrder` follows the package's columns. The `Meal.orders` backref is not modelled.
- `Backend/app.py` lines 30-34 set Flask configuration values that no modelled route reads.
- `Backend/app.py`'s `seed` and `create_admin` commands, the `paginate` helper and the 404/500 handlers' page rendering are not modelled. They are command-line and maintenance code.
- `Backend/app/models.py` is not part of this model. The package `Backend/app/models/` shadows it on import, and the package is modelled.
- `Backend/app/app.py`, `Backend/app/main.py`, `Backend/app/routes/`, the seeders and the maintenance scripts are not part of this model. They are wiring, test stubs or one-off data edits. `Backend/fix_menu_constraint.py` changes the unique key on menus at the database level; the model keeps the declared unique date.
- `Frontend/src/pages/HomePage.jsx` (a timer slideshow), `NotFound.jsx`, `Unauthorized.jsx`, `layout/Header.jsx`, `common/Loading.jsx`, `common/Footer.js` and `ui/empty-state.jsx` are not modelled. They hold no logic beyond rendering.
