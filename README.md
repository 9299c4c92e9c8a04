# Delivery dashboard: rules and state machines

A Dafny model of the decision logic of a courier dashboard: a React single-page
app over a REST API. Couriers sign in, list their assigned orders, open one, and
move it along the order lifecycle. The lifecycle runs `pending` → `order_confirmed` → `being_packed` →
`ready_for_pickup` → `out_for_delivery` → `delivered` | `cancelled`.

The app has no algorithmic core. What it does have is a set of small, decidable
rules and state machines spread over its components. Each component is one
Dafny module:

| module | component | form |
|---|---|---|
| `Types` | the status union, `Order`, `User`, the outcome of a remote call | datatypes |
| `Badge` | status badge colour and text | functions |
| `OrderCard` | date unwrapping, ETA, title, item count | functions |
| `OrderDetails` | which actions and notices a status gets, the confirmation toast, the status-change handler | functions + class `DetailsView` |
| `OrderDetailsPage` | fetch one order, hold it, replace it on update, choose the screen | state functions + class `DetailsPage` |
| `OrderList` | query for a filter, client-side filter, empty state, load handler | functions + class `OrderListView` |
| `AuthContext` | session bootstrap, login, register, logout over the user, the loading flag and the cookie and local-storage maps | state functions + class `AuthProvider` |
| `RegisterForm`, `LoginForm` | client-side validation and submit handling | functions + classes |
| `App` | the route table and the protected-route guard | functions |

Remote calls are parameters. Most are of type `Outcome<T>`: `Success(value)` or
`Failure(GatewayError)`. A `GatewayError` carries the server's error body, if
any, and the transport message. The detail page's fetch is a `FetchReply`
instead: a rejection, or a resolved body that may be falsy. The browser's
cookie jar and local storage are `map`s held by the session provider. The
cookie records its expiry of 7 days as data.

Every component with React state is a class. The order list, the detail page
and the session provider also have a pure datatype for their state (`State()`)
and pure step functions (`AfterLoad`, `AfterFetch`, `AfterBootstrap`, …). Their
methods ensure `State() == Step(old(State()), …)`, and the lemmas are stated
over the step functions. The detail panel and the two forms hold only their
inputs, a loading flag or an error string, so their methods state those fields
directly. Where a handler writes a flag or a string more than once, every write
is recorded in a ghost log, so "raised during the request, lowered afterwards"
and "cleared at the start of every submit" are part of the contracts. This
covers `loading` in the order list, the detail panel and the session provider,
and `error` in both forms. The detail page writes `loading` and `error` at most
once per load, so it needs no log.

Behaviours of the code worth noting:

- The "not ready for pickup" line is shown for `being_packed` only, not for
  `pending` too (see Findings).
- The detail page tells a falsy response ("Order not found") apart from a
  rejected request ("Failed to load order details").
- Register's client-side checks live in the registration form. The session
  provider's `register` calls the server unconditionally.
- The password length is JavaScript's `length`, which counts UTF-16 code units
  (`Types.Utf16Length`). Three emoji therefore make a valid six-unit password.

## Model

| member | source | states |
|---|---|---|
| `Types.StatusName` | src/types/index.ts:9-16 | each of the seven statuses has a name that parses back to it, so names are distinct |
| `Types.ParseStatusOnlyNames` | src/types/index.ts:9-16 | a string is a valid status exactly when it is one of the seven names, and it then names that status |
| `Types.TerminalIsLastRank` | src/types/index.ts:9-16 | `delivered` and `cancelled` are exactly the statuses at the end of the lifecycle |
| `Types.Utf16Length` | src/components/auth/RegisterForm.tsx:25 | a string's JavaScript length lies between its number of characters and twice that, and is 0 only for "" |
| `Badge.ColorOfName` | src/components/ui/Badge.tsx:10-25 | the colour switch over the raw string: the grey default exactly for strings other than the five cases; 'ready' and 'picked-up' get blue and yellow |
| `Badge.TextOfName` | src/components/ui/Badge.tsx:27-42 | the label switch over the raw string: the string itself exactly for strings other than the five cases; 'ready' and 'picked-up' get "Ready for Pickup" and "Picked Up" |
| `Badge.StatusColor` | src/components/ui/Badge.tsx:10-25 | total over statuses: pending, delivered and cancelled get their own classes, every other status the grey default |
| `Badge.StatusText` | src/components/ui/Badge.tsx:27-42 | pending, delivered and cancelled get "Pending", "Delivered", "Cancelled"; every other status falls to the default and shows its raw name |
| `Badge.ReadyAndPickedUpUnreachable` | src/components/ui/Badge.tsx:10-42 | no status is named 'ready' or 'picked-up', so those cases' texts and colours are never produced |
| `Badge.StatusTextInjective` | src/components/ui/Badge.tsx:27-42 | two different statuses never get the same badge text |
| `OrderCard.DateString` | src/components/orders/OrderCard.tsx:14-18 | a string is returned unchanged, an object's truthy `$date` is unwrapped, and anything else gives "" |
| `OrderCard.DateStringFromInput` | src/components/orders/OrderCard.tsx:14-18 | the result is "" or one of the strings carried by the input |
| `OrderCard.GetEta` | src/components/orders/OrderCard.tsx:30-33 | "Not estimated" exactly when the estimate is absent or empty, otherwise the estimate's date |
| `OrderCard.FormatAddress` | src/components/orders/OrderCard.tsx:36-38 | the shipping address is shown character for character |
| `OrderCard.Title` | src/components/orders/OrderCard.tsx:54 | the order number when non-empty, otherwise "Order #" followed by the id |
| `OrderCard.ItemCount` | src/components/orders/OrderCard.tsx:65 | the card shows the number of items in the order, followed by "item" exactly when that number is 1 |
| `OrderCard.ItemNoun` | src/components/orders/OrderCard.tsx:65 | "item" exactly when the count is 1, "items" for every other count |
| `OrderCard.EmptyOrderReadsZeroItems` | src/components/orders/OrderCard.tsx:65 | an order without items reads "0 items" |
| `OrderDetails.Target` | src/components/orders/OrderDetails.tsx:225-248 | Pick Up requests out_for_delivery, Mark as Delivered requests delivered, Cancel Delivery requests cancelled; only Pick Up leads to a non-terminal status |
| `OrderDetails.NotReadyBlock` | src/components/orders/OrderDetails.tsx:265-272 | the written expression is `true` (nothing rendered) exactly for pending, and the "not ready" line exactly for being_packed; it never holds buttons |
| `OrderDetails.DeliveryPanel` | src/components/orders/OrderDetails.tsx:220-272 | buttons come only from the first two children and text lines only from the last two; whenever one of the first three renders an element, the other three render nothing |
| `OrderDetails.OfferedActions` | src/components/orders/OrderDetails.tsx:220-254 | no action from a terminal status; every offered action requests a strictly later lifecycle status; no action twice |
| `OrderDetails.Notices` | src/components/orders/OrderDetails.tsx:256-272 | at most one text line; "This order is already {status}." exactly for the terminal statuses |
| `OrderDetails.ActionsByStatus` | src/components/orders/OrderDetails.tsx:220-254 | ready_for_pickup offers Pick Up; out_for_delivery offers Mark Delivered then Cancel; the other five statuses offer nothing |
| `OrderDetails.ActionsOnlyWhenActionable` | src/components/orders/OrderDetails.tsx:220-254 | actions appear exactly for ready_for_pickup (one, to out_for_delivery) and out_for_delivery (two, to delivered and cancelled) |
| `OrderDetails.NoticesByStatus` | src/components/orders/OrderDetails.tsx:256-272 | the text line of each of the seven statuses; pending and order_confirmed get none |
| `OrderDetails.AlreadyText` | src/components/orders/OrderDetails.tsx:260 | the terminal sentence template; its contents are stated by `AlreadyTextNamesStatus` and `AlreadyTextByStatus` |
| `OrderDetails.AlreadyTextNamesStatus` | src/components/orders/OrderDetails.tsx:260 | "This order is already ", then the raw status name, then a full stop, and nothing else |
| `OrderDetails.AlreadyTextByStatus` | src/components/orders/OrderDetails.tsx:256-263 | the terminal line reads "This order is already delivered." / "… cancelled." |
| `OrderDetails.NotReadyShownOnlyForBeingPacked` | src/components/orders/OrderDetails.tsx:265-272 | as written, the `\|\|` yields `true` for pending, which renders nothing, so "not ready" shows for being_packed only |
| `OrderDetails.IntendedNotReadyBlock` | src/components/orders/OrderDetails.tsx:265-272 | with the grouping `(pending \|\| being_packed) && <line>`, the line appears exactly for pending and being_packed |
| `OrderDetails.IntendedNotices` | src/components/orders/OrderDetails.tsx:256-272 | with the intended grouping: at most one line, the terminal line for terminal statuses, and exactly "not ready" for pending and being_packed |
| `OrderDetails.IntendedNoticeCoversPendingAndBeingPacked` | src/components/orders/OrderDetails.tsx:265-272 | the corrected block shows "not ready" for pending and being_packed, and differs from the written block on pending alone |
| `OrderDetails.ContactLine` | src/components/orders/OrderDetails.tsx:116-125 | an empty phone gives the apology line, whose text is "Sorry you can't contact to user " followed by the four characters U+00F0 U+0178 U+02DC U+00A7 exactly as the file spells them (a mis-decoded emoji); otherwise a `tel:` link showing the phone |
| `OrderDetails.SuccessMessage` | src/components/orders/OrderDetails.tsx:59-66 | "Order picked up! Start delivering.", "Order delivered successfully!" and "Order delivery cancelled." for out_for_delivery, delivered and cancelled; the generic toast exactly for the other four statuses |
| `OrderDetails.OfferedActionsHaveSpecificMessages` | src/components/orders/OrderDetails.tsx:59-66 | every button the panel offers gets a specific toast; the generic "Order updated successfully!" is never reached from the panel |
| `OrderDetails.SuccessMessagesDistinct` | src/components/orders/OrderDetails.tsx:59-66 | different actions get different confirmation toasts |
| `OrderDetails.DetailsView.constructor` | src/components/orders/OrderDetails.tsx:26-30 | the panel starts for the given order with `loading` false |
| `OrderDetails.DetailsView.ReceiveOrder` | src/components/orders/OrderDetails.tsx:26-29 | a re-render gives the panel a new order and keeps its loading state |
| `OrderDetails.DetailsView.HandleStatusUpdate` | src/components/orders/OrderDetails.tsx:51-73 | requests (order id, new status); on success the callback gets exactly the server's order and the toast is the target's message; on failure no callback and no toast; `loading` goes true then false |
| `OrderDetailsPage.AfterFetch` | src/pages/OrderDetailsPage.tsx:16-30 | a rejection sets "Failed to load order details", a falsy body "Order not found", a body sets the order; loading always ends false; nothing is reset |
| `OrderDetailsPage.AfterStatusUpdate` | src/pages/OrderDetailsPage.tsx:35-37 | the held order becomes the argument; loading and error are unchanged |
| `OrderDetailsPage.View` | src/pages/OrderDetailsPage.tsx:39-70 | spinner exactly while loading; details exactly when not loading, no truthy error and an order held; otherwise the error text or "Order not found" |
| `OrderDetailsPage.FirstLoadOutcomes` | src/pages/OrderDetailsPage.tsx:16-30 | from the initial state, each kind of reply ends on its screen |
| `OrderDetailsPage.StaleErrorHidesLaterOrder` | src/pages/OrderDetailsPage.tsx:16-33 | the effect never clears `error`, so after a failed load a later successful one still shows the old error |
| `OrderDetailsPage.UpdateShowsServerOrder` | src/pages/OrderDetailsPage.tsx:35-37 | once the details are shown, an update shows exactly the server's order, all fields included |
| `OrderDetailsPage.DetailsPage.constructor` | src/pages/OrderDetailsPage.tsx:11-13 | starts with no order, loading, and no error |
| `OrderDetailsPage.DetailsPage.GetOrder` | src/pages/OrderDetailsPage.tsx:16-30 | asks for the route's id and moves to `AfterFetch` of the old state |
| `OrderDetailsPage.DetailsPage.HandleStatusUpdate` | src/pages/OrderDetailsPage.tsx:35-37 | moves to `AfterStatusUpdate` of the old state |
| `OrderDetailsPage.DetailsPage.ChangeStatus` | src/pages/OrderDetailsPage.tsx:68 | a panel action: on success the page holds the server's order and the panel is re-rendered with it; on failure the page state is unchanged; the panel's `loading` goes true then false |
| `OrderList.QueryFor` | src/components/orders/OrderList.tsx:21-30 | `all` sends no status, and every other filter sends itself; the two non-`all` branches agree |
| `OrderList.KeepStatus` | src/components/orders/OrderList.tsx:49 | keeps every copy of each order of the given status and no other order, so the result's multiset is the input's restricted to that status; never grows the list |
| `OrderList.Displayed` | src/components/orders/OrderList.tsx:46-49 | `all` displays the fetched list; any other filter displays only orders of its status, each with as many copies as were fetched |
| `OrderList.KeepStatusIsSubsequence` | src/components/orders/OrderList.tsx:49 | the filtered list keeps the fetched order |
| `OrderList.KeepStatusIdempotent` | src/components/orders/OrderList.tsx:49 | filtering twice equals filtering once |
| `OrderList.KeepStatusOfMatchingList` | src/components/orders/OrderList.tsx:49 | a list whose orders all have the status is kept as it is |
| `OrderList.DisplayedProperties` | src/components/orders/OrderList.tsx:46-49 | `all` displays the fetched list; any filter displays an order-preserving part of it and is idempotent |
| `OrderList.DisplayedWhenServerHonoursQuery` | src/components/orders/OrderList.tsx:21-49 | if the server returns only orders matching the query it was sent, the displayed list is the fetched list |
| `OrderList.FilterButtons` | src/components/orders/OrderList.tsx:51-56 | the filter bar, left to right: All, Ready, Picked Up, Delivered with their filter values |
| `OrderList.FilterButtonsDistinct` | src/components/orders/OrderList.tsx:51-56 | the four filter values (all, ready_for_pickup, out_for_delivery, delivered) are distinct, and only the first is `all` |
| `OrderList.EmptyMessage` | src/components/orders/OrderList.tsx:96-98 | "There are no orders in the system." for `all`; otherwise exactly "There are no orders with " + the status name + " status." |
| `OrderList.EmptyMessageInjective` | src/components/orders/OrderList.tsx:96-98 | different filters give different empty-state lines |
| `OrderList.AfterLoad` | src/components/orders/OrderList.tsx:16-37 | on success the fetched list replaces the held one; on failure the held list stays; loading ends false; the filter is kept |
| `OrderList.View` | src/components/orders/OrderList.tsx:58-111 | spinner exactly while loading; the empty line only when nothing is displayed; otherwise one card per displayed order |
| `OrderList.FirstLoadFailureShowsEmpty` | src/components/orders/OrderList.tsx:11-36 | a failed first load leaves the initial empty list and shows the `all` empty-state line |
| `OrderList.OrderListView.constructor` | src/components/orders/OrderList.tsx:11-13 | starts with no orders, loading, filter `all` |
| `OrderList.OrderListView.LoadOrders` | src/components/orders/OrderList.tsx:16-37 | sends the filter's query, moves to `AfterLoad`, and `loading` goes true then false |
| `OrderList.OrderListView.SelectFilter` | src/components/orders/OrderList.tsx:16-40 | choosing the current filter changes nothing; choosing a new one stores it and reloads with its query, `loading` going true then false |
| `AuthContext.IsAuthenticated` | src/context/AuthContext.tsx:96 | `!!user`: authenticated exactly when a user is held |
| `AuthContext.StoredToken` | src/context/AuthContext.tsx:28-29 | the token cookie's value exactly when that cookie exists and is non-empty |
| `AuthContext.AfterBootstrap` | src/context/AuthContext.tsx:26-45 | no token: only loading is lowered; accepted token: the user is set; rejected token: user cleared and token cookie removed, other cookies kept; loading ends false |
| `AuthContext.AfterAuthReply` | src/context/AuthContext.tsx:47-59 | success stores the token under `delivery-token` for 7 days, keeps other cookies and sets the user; failure changes nothing but loading, which ends false |
| `AuthContext.Rethrown` | src/context/AuthContext.tsx:55 | the rethrown value is the server's error body when there is one, else the error itself |
| `AuthContext.AfterLogout` | src/context/AuthContext.tsx:87-90 | the user is cleared and `delivery-user` removed from local storage; every other storage key keeps its value; the cookies and the loading flag are untouched |
| `AuthContext.LogoutThenReloadRestoresSession` | src/context/AuthContext.tsx:26-45 | because logout keeps the token, a reload verifies the same token and restores the session if the server accepts it |
| `AuthContext.LoginTokenSurvivesReload` | src/context/AuthContext.tsx:50-51 | after a successful login, a reload verifies the token the login stored |
| `AuthContext.BootstrapSettles` | src/context/AuthContext.tsx:26-45 | after bootstrap the session is authenticated exactly when a token was stored and accepted; a rejected token is gone |
| `AuthContext.FailedAuthChangesNothing` | src/context/AuthContext.tsx:53-58 | a failed login or register leaves the user and the cookies as they were |
| `AuthContext.AuthProvider.constructor` | src/context/AuthContext.tsx:23-24 | no user, loading, over the browser's existing stores |
| `AuthContext.AuthProvider.Bootstrap` | src/context/AuthContext.tsx:26-45 | verifies the stored token, or makes no call when there is none, and moves to `AfterBootstrap` |
| `AuthContext.AuthProvider.Login` | src/context/AuthContext.tsx:47-59 | sends (email, password), moves to `AfterAuthReply`, rethrows on failure, and `loading` goes true then false |
| `AuthContext.AuthProvider.Register` | src/context/AuthContext.tsx:61-85 | the same contract as login, with the registration request including the optional vehicle |
| `AuthContext.AuthProvider.StoreSession` | src/context/AuthContext.tsx:49-58 | the try/catch shared by login and register: success stores the token cookie and the user as `AfterAuthReply` does; failure changes neither and returns the rethrown value |
| `AuthContext.AuthProvider.Logout` | src/context/AuthContext.tsx:87-90 | moves to `AfterLogout` |
| `RegisterForm.Validate` | src/components/auth/RegisterForm.tsx:21-28 | passes exactly when name, email, password and phone are non-empty and the password has length ≥ 6; an empty field reports the required-fields message; a filled form whose password is shorter than 6 reports the length message; the vehicle is not checked |
| `RegisterForm.PasswordLengthBoundary` | src/components/auth/RegisterForm.tsx:25-28 | for ordinary characters a 5-character password is refused with the length message and a 6-character one passes |
| `RegisterForm.ThreeEmojiPasswordPasses` | src/components/auth/RegisterForm.tsx:25 | three characters outside the Basic Multilingual Plane have length 6 and pass |
| `RegisterForm.FailureMessage` | src/components/auth/RegisterForm.tsx:35 | the thrown value's message when truthy, else "Registration failed. Please try again." |
| `RegisterForm.ServerMessageWins` | src/components/auth/RegisterForm.tsx:33-36 | with a server error body, the form shows that body's message or the fallback, never the transport message |
| `RegisterForm.RegisterFormState.constructor` | src/components/auth/RegisterForm.tsx:8-13 | all inputs and the error start empty |
| `RegisterForm.RegisterFormState.Fill` | src/components/auth/RegisterForm.tsx:69-162 | the five inputs hold what was typed |
| `RegisterForm.RegisterFormState.HandleSubmit` | src/components/auth/RegisterForm.tsx:17-37 | error cleared first; a failed check sets its message and leaves the provider untouched; otherwise register is called with the vehicle as typed, success navigates to "/", failure shows `FailureMessage` |
| `LoginForm.Validate` | src/components/auth/LoginForm.tsx:18-21 | passes exactly when email and password are both non-empty; there is no length rule |
| `LoginForm.LoginFormState.constructor` | src/components/auth/LoginForm.tsx:8-10 | inputs and error start empty |
| `LoginForm.LoginFormState.Fill` | src/components/auth/LoginForm.tsx:56-76 | the two inputs hold what was typed |
| `LoginForm.LoginFormState.HandleSubmit` | src/components/auth/LoginForm.tsx:14-29 | error cleared first; an empty field sets its message without calling login; success navigates to "/"; any failure shows "Invalid email or password" |
| `App.Guard` | src/App.tsx:11-27 | spinner while loading whatever the authentication; then children if authenticated, else a redirect to "/login" |
| `App.OrderId` | src/App.tsx:43 | a recognised order path is "/order/" followed by a non-empty segment without "/" |
| `App.OrderIdOfOrderPath` | src/App.tsx:43 | every "/order/<id>" path is recognised with its id |
| `App.Route` | src/App.tsx:31-50 | a public element is the login page exactly for "/login"; a guarded element is the dashboard or an order's details |
| `App.RouteKinds` | src/App.tsx:31-50 | "/login" and "/register" are exactly the public paths, "/" and "/order/:id" exactly the guarded ones, and every other path, and only those, redirects to "/" |
| `App.RouteTable` | src/App.tsx:31-50 | the four routes and their pages: login, register, the dashboard at "/" and an order's details at "/order/<id>" |
| `App.Resolve` | src/App.tsx:11-50 | a guarded path shows the spinner while loading, then its page when authenticated and the login redirect otherwise; the route table gives "/login" and "/register" their pages whatever the session; every other path navigates to "/"; the spinner appears only on a guarded path while loading |
| `App.LogoutLocksProtectedPages` | src/App.tsx:22-24 | after logout every guarded path redirects to "/login", although the token cookie is still there |
| `App.BootstrapDecidesProtectedPages` | src/App.tsx:14-26 | on a fresh load a guarded path shows the spinner, then the page only if a stored token was accepted, else the login redirect |

## Left out

- HTTP transport (the order and auth service modules and the axios instance): each call is an `Outcome` parameter; the bearer header and the base URL are not modelled.
- Locale formatting of dates and prices (`formatDate`, `formatPrice`): a formatted date is represented by its source string, and `totalAmount` and coordinates are carried as `real`, never computed with. An unparsable date makes `Intl.DateTimeFormat.format` throw, which crashes the card. That includes the "" that `getDateString` returns for a value without a date (src/components/orders/OrderCard.tsx:14-18, passed to `new Date`). The model does not capture this crash.
- Opening the map (`openMap`, `window.open`, `encodeURIComponent`), toasts beyond their text, console logging, and navigation beyond its target path.
- Overlapping loads when the filter changes quickly or a login races another login: each request is modelled as completing before the next begins.
- Markup and styling: the card and header components, the registration page's redirect effect, the dashboard page wrapper, and the `isLoading` state of buttons.
- Modules that are not part of this model (the mock data module, the button and layout components, the `useAuth` hook, `LoginPage`): their behaviour is not visible.
- `App.Resolve`: the screen is the route table's choice only. The pages' own effects are not modelled. `RegisterPage` (src/pages/RegisterPage.tsx:11-15) sends an authenticated user on to "/", so "/register" shows its page only to a signed-out user. What `LoginPage` does is not part of this model.
- `OrderDetails.DetailsView.HandleStatusUpdate`: the status reply is taken at its declared type `{ order: Order }` (src/components/service/order.service.ts:40-43). A body without `order`, which would hand `undefined` to the page, is not modelled. The detail page's fetch, by contrast, does model a missing `order`.
- Cookie expiry over time: the 7-day lifetime is recorded as data only.
- `App.OrderId`, `App.Route`, `App.RouteKinds`, `App.RouteTable`, `App.Resolve`: route matching is exact and case-sensitive. The router matches case-insensitively, accepts a trailing slash and percent-decodes `:id`, so it renders the login page for "/LOGIN" or "/login/", where the model redirects to "/".
- `RegisterForm.RegisterFormState.HandleSubmit`, `LoginForm.LoginFormState.HandleSubmit`: the model starts at the submit handler, and the browser's constraint validation is not modelled. Both forms submit through a `type="submit"` button (src/components/auth/RegisterForm.tsx:169, src/components/auth/LoginForm.tsx:83-84), so the browser checks the inputs first. The registration inputs for name, email, password and phone carry `required` (src/components/auth/RegisterForm.tsx:73, 96, 119, 142). A normal submit therefore never reaches "Please fill all required fields". The email inputs have `type="email"` (src/components/auth/RegisterForm.tsx:91, src/components/auth/LoginForm.tsx:55), so a non-empty malformed email never reaches login or register. The login inputs carry no `required`, so "Please enter both email and password" stays reachable.

## Findings

| source | as written | input that shows it | evidently intended | confidence | as-written member | corrected member |
|---|---|---|---|---|---|---|
| src/components/orders/OrderDetails.tsx:265-272 | `status === "pending" \|\| (status === "being_packed" && <line>)` | status `pending`: the expression is `true`, which renders nothing | `(pending \|\| being_packed) && <line>`: "This order is not ready for pickup yet." for both | high; not executed | `OrderDetails.NotReadyShownOnlyForBeingPacked` | `OrderDetails.IntendedNoticeCoversPendingAndBeingPacked` |

The rendered panel (`OrderDetails.Notices`) keeps the code's behaviour, because
that is what the app shows. The corrected block (`OrderDetails.IntendedNotReadyBlock`,
`OrderDetails.IntendedNotices`) is defined beside it, and its lemma states where
the two differ.
