# Food-ordering storefront: a verified model

This project models the client-side logic of a food-ordering storefront. The storefront is a React single-page application on top of a hosted backend. Customers and guests browse restaurants, fill a cart and place orders. Restaurant owners watch their orders and figures. Administrators keep menus, schedules and order statuses.

Each core source file becomes one Dafny module, named after the file:
- `CartEngine` is the cart context.
- `Checkout` is order placement.
- `Security` holds the rate limiter and the CSRF token.
- `Validations` holds the input schemas.
- `Identity` is the auth context.
- `Session` is the session manager.
- `AdminPanel`, `MenuManagement`, `AdminOrders` and `Dashboard` are the admin pages.
- `OwnerOrders` and `OwnerDashboard` are the owner pages.
- `RestaurantList`, `RestaurantDetail`, `Home` and `CustomerOrders` are the customer pages.
- `RouteGuard` is the admin route guard.
- `AdminLogin`, `UserProfile`, `AuthModal`, `App`, `FileUpload` and `Progress` are the remaining components.

Two shared modules support them. `Common` holds options, character classes, filters, sums and decimal text. `Records` holds the row types of the backend schema.

The modelling follows the shape of the code:
- Pure expressions (filters, maps, reductions, schema checks) are functions or predicates, with lemmas that state what they mean.
- A component or context whose state cells the handlers update becomes a class. Its methods state the whole new state in terms of the old one and of functions whose properties are proved.
- Money is whole cents. Lengths are counted in characters.
- Every backend answer is a parameter of the handler that awaits it: `None` is success, `Some(message)` is a thrown error whose message may be missing. The same goes for the clock, the hour of the day, `window.confirm` and the file reader's result.

Several functions are reference definitions with no contract of their own. Their meaning is given by the lemmas and methods listed below them:
- `CartEngine.AddStep`, `RemoveStep` and `UpdateStep` are the three cart reducers (src/contexts/CartContext.tsx:33-82).
- `CartEngine.Total` and `ItemCount` are the total and the badge count (src/contexts/CartContext.tsx:84-90).
- `Checkout.PlaceOrderFlow` is the order submission (src/pages/Checkout.tsx:26-82).
- `Security.Check` is the rate limiter's decision (src/lib/security.tsx:71-94).
- `Identity.SignInAsGuestStep`, `SignOutStep`, `FetchProfileStep`, `StartupStep`, `AuthChangeStep` and `AdminSignInStep` are the auth transitions (src/contexts/AuthContext.tsx:34-170).
- The `Validations.Valid*` predicates are the input schemas (src/lib/validations.ts:1-184).

## Model

| member | source | states |
|---|---|---|
| CartEngine.Find | src/contexts/CartContext.tsx:44 | returns the index of the first line with the id, or none when no line has it |
| CartEngine.Bump | src/contexts/CartContext.tsx:46-50 | the map keeps the length and the order; at every position a line with the id gains one unit and any other line is unchanged, whether or not ids repeat |
| CartEngine.SetLineQuantity | src/contexts/CartContext.tsx:72-76 | the map keeps the length and the order; at every position a line with the id gets the new quantity and any other line is unchanged, whether or not ids repeat |
| CartEngine.TotalsAppend | src/contexts/CartContext.tsx:84-90 | appending a line adds its price times quantity to the total and its quantity to the item count |
| CartEngine.CountsBound | src/contexts/CartContext.tsx:84-90 | with positive quantities the badge count is at least the number of lines, and the total is never negative |
| CartEngine.UpdatesMissAbsentId | src/contexts/CartContext.tsx:46-50 | raising or setting the quantity of an id no line has changes nothing |
| CartEngine.SetLineQuantitySpec | src/contexts/CartContext.tsx:72-76 | with distinct ids, only the one matching line changes; the total and count move by the quantity difference |
| CartEngine.BumpIsSetQuantity | src/contexts/CartContext.tsx:46-50 | with distinct ids, raising a line by one is the same as setting it to its quantity plus one |
| CartEngine.AddLineExisting | src/contexts/CartContext.tsx:44-50 | adding an item already in the cart raises only that line, adds its price once to the total and one to the count |
| CartEngine.AddLineNew | src/contexts/CartContext.tsx:51-53 | adding an item not yet in the cart appends one line of quantity one, adds its price to the total and one to the count |
| CartEngine.AddStepOutcomes | src/contexts/CartContext.tsx:33-54 | a declined conflict leaves the cart as it was; a confirmed conflict replaces the cart with the single new line; otherwise the line is added and the cart is bound to the new restaurant |
| CartEngine.AddLineKeepsInvariant | src/contexts/CartContext.tsx:43-54 | adding keeps line ids distinct and quantities positive |
| CartEngine.AddStepKeepsInvariant | src/contexts/CartContext.tsx:33-54 | `addToCart` with a restaurant id keeps the ids distinct, the quantities positive, and the cart empty exactly when it is bound to no restaurant |
| CartEngine.RemoveStepSpec | src/contexts/CartContext.tsx:56-64 | removal drops exactly the lines with the id and keeps the rest in order; emptying the cart unbinds the restaurant; the invariant holds |
| CartEngine.RemoveTotals | src/contexts/CartContext.tsx:56-64 | removing a present line subtracts its amount from the total and its quantity from the count; removing an absent id changes nothing |
| CartEngine.UpdateStepSpec | src/contexts/CartContext.tsx:66-77 | a quantity of zero or less removes the line; a positive quantity sets only the matching line, or changes nothing when it is absent; the invariant holds |
| CartEngine.InitialCartSpec | src/contexts/CartContext.tsx:29-30 | the initial and cleared cart is valid, empty, and totals zero |
| CartEngine.Cart.constructor | src/contexts/CartContext.tsx:29-30 | the provider starts with an empty cart bound to no restaurant and no recorded line origins |
| CartEngine.Cart.AddToCart | src/contexts/CartContext.tsx:33-54 | the new state is `AddStep` of the old state and the invariant, with one recorded origin per line, is kept; a new line records the restaurant id it was added with, a raised line keeps its origin, a confirmed conflict forgets the old origins; with non-empty restaurant ids every line's origin is the restaurant the cart is bound to |
| CartEngine.KeptOrigins | src/contexts/CartContext.tsx:56-64 | the origins of the lines a removal keeps: one per kept line, each an origin the cart had |
| CartEngine.RemoveKeepsOrigins | src/contexts/CartContext.tsx:56-64 | when every line's origin is the bound restaurant, so is every kept line's origin after a removal |
| CartEngine.Cart.RemoveFromCart | src/contexts/CartContext.tsx:56-64 | the new state is `RemoveStep` of the old state; the kept lines keep their origins; the invariant and the single-restaurant property are kept |
| CartEngine.Cart.UpdateQuantity | src/contexts/CartContext.tsx:66-77 | the new state is `UpdateStep` of the old state; a removal keeps the kept lines' origins and a new quantity keeps all of them; the invariant and the single-restaurant property are kept |
| CartEngine.Cart.ClearCart | src/contexts/CartContext.tsx:79-82 | the cart becomes empty, bound to no restaurant and without origins |
| Checkout.OrderItems | src/pages/Checkout.tsx:60-66 | one item row per cart line, in order, each carrying the new order id and that line's item id, quantity, price and name |
| Checkout.PlaceOrderGuards | src/pages/Checkout.tsx:31-41 | a guest gets the guest message, and a missing user or an unbound cart gets the generic message; neither writes anything, and any flow that writes no order shows an error and does not succeed |
| Checkout.EmptyCartPlacesNothing | src/pages/Checkout.tsx:37-41 | an empty, valid cart is bound to no restaurant, so it never writes an order |
| Checkout.PlaceOrderWrites | src/pages/Checkout.tsx:43-81 | a written order is pending and carries the user, the restaurant, the cart total plus the 2.99 fee, and the form fields; item rows are written only after the order is created; success holds iff both writes succeed, and then no error is shown |
| Checkout.ItemsMatchCartTotal | src/pages/Checkout.tsx:22-24 | the item rows add up to the cart total, so the order amount is the item subtotal plus the delivery fee |
| Checkout.CheckoutPage.constructor | src/pages/Checkout.tsx:15-19 | the form starts blank, with no error and not loading |
| Checkout.CheckoutPage.PlaceOrder | src/pages/Checkout.tsx:26-82 | the placement is `PlaceOrderFlow`; loading ends false; the cart is cleared only on success and is otherwise untouched |
| Security.FirstCallAllowed | src/lib/security.tsx:75-78 | the first call for an unseen identifier is allowed and opens a window at that time with one attempt |
| Security.WindowExpiry | src/lib/security.tsx:80-84 | a call strictly more than the window after its start is allowed and opens a new window; a call exactly at the window's length is still counted in the old window |
| Security.CheckSpec | src/lib/security.tsx:71-94 | a refused call changes nothing; an allowed call in the window adds one and keeps the start; no other identifier changes; counts never exceed the limit |
| Security.RunInsideWindow | src/lib/security.tsx:86-93 | inside one window a call is allowed exactly while the attempts used stay below the limit |
| Security.ExactlyMaxAllowedPerWindow | src/lib/security.tsx:71-94 | from an unseen identifier, of the calls within one window exactly the first `maxAttempts` are allowed |
| Security.ResetSpec | src/lib/security.tsx:96-98 | after `reset` the identifier is unseen and its next call is allowed; other identifiers keep their entries |
| Security.RateLimiter.constructor | src/lib/security.tsx:63-69 | a limiter starts with the given limit, window and no entries |
| Security.RateLimiter.IsAllowed | src/lib/security.tsx:71-94 | the answer and the new entries are those of `Check` on the old entries |
| Security.RateLimiter.Reset | src/lib/security.tsx:96-98 | only the identifier's entry is removed |
| Security.NewLoginRateLimiter | src/lib/security.tsx:102 | the login limiter allows 5 attempts per 15 minutes |
| Security.NewSignupRateLimiter | src/lib/security.tsx:103 | the sign-up limiter allows 3 attempts per hour |
| Security.CsrfTokenCharacterization | src/lib/security.tsx:50-53 | a token is valid iff it has at least 32 characters, all ASCII letters or digits |
| Security.HexDigit | src/lib/security.tsx:59 | every digit below 16 becomes a lower-case hex character |
| Security.HexValue | src/lib/security.tsx:59 | every hex character reads back as a digit below 16 |
| Security.HexByteSpec | src/lib/security.tsx:59 | a byte becomes exactly two characters: its high nibble, then its low nibble |
| Security.HexEncodeSpec | src/lib/security.tsx:55-60 | the encoding has two hex characters per byte and decodes back to the same bytes |
| Security.GeneratedTokenValid | src/lib/security.tsx:50-60 | a token generated from 32 bytes is 64 characters long and passes `validateCSRFToken` |
| Validations.LookaheadSpec | src/lib/validations.ts:14 | a `(?=.*[class])` lookahead succeeds iff a character of the class appears before the first line terminator |
| Validations.SignUpPasswordSpec | src/lib/validations.ts:10-14 | on a single-line password, sign-up accepts exactly 6 to 100 characters containing a lower-case letter, an upper-case letter and a digit |
| Validations.AdminPasswordSpec | src/lib/validations.ts:89-92 | on a single-line password, admin creation accepts exactly 8 or more characters containing a lower-case letter, an upper-case letter, a digit and one of @$!%*?& |
| Validations.AdminPasswordIsSignUpPassword | src/lib/validations.ts:10-14 | every admin password of at most 100 characters is also a valid sign-up password |
| Validations.LookaheadStopsAtLineBreak | src/lib/validations.ts:14 | an upper-case letter after a line break does not satisfy the lookahead, while the same letters on one line do |
| Validations.PhonePatternSpec | src/lib/validations.ts:24 | the phone pattern accepts one or more digits, spaces, hyphens or parentheses, with at most one leading plus |
| Validations.ExamplePhoneAccepted | src/lib/validations.ts:20-24 | "+1 555 123 4567" is a valid phone |
| Validations.ExamplePhonesRefused | src/lib/validations.ts:20-24 | a phone with letters, or with two leading pluses, is refused |
| Validations.ExampleFullNames | src/lib/validations.ts:15-19 | "Jane Doe" is accepted; a one-letter name and a name with a digit are refused |
| Validations.GuestFieldsMatchSignUp | src/lib/validations.ts:44-59 | any valid sign-up's name, phone and email also pass the guest form |
| Validations.OrderInstructionsOptional | src/lib/validations.ts:78-81 | leaving out the special instructions never invalidates an order, and instructions over 500 characters always do |
| Validations.CategoryMatchesRecords | src/lib/validations.ts:113 | the category enum is exactly the three menu categories |
| Validations.ParseAdminMenuItem | src/lib/validations.ts:139-159 | the parse succeeds iff the name, description, price, category and any image pass; on success it keeps the fields, and availability defaults to true and vegetarian to false |
| Validations.AdminMenuNameStricter | src/lib/validations.ts:100-158 | every item the admin create schema accepts also passes `menuItemSchema` (taken without an image URL), and the name "Fish <b>" passes the plain length bounds but not the admin character set |
| Validations.OrderStatusMatchesRecords | src/lib/validations.ts:166-170 | the status enum is exactly the six order statuses |
| Validations.AdminUserUpdateRoles | src/lib/validations.ts:178-184 | a valid user update can never grant the owner, super-admin or guest role |
| Validations.BulkMenuUpdateSpec | src/lib/validations.ts:187-197 | a bulk delete needs `confirmDelete` to be true; other actions accept any flag; an empty selection is always refused |
| Identity.GuestName | src/contexts/AuthContext.tsx:146 | the guest's name is never empty: the trimmed display name when it is not blank, otherwise "Guest Diner" |
| Identity.SignInAsGuestSpec | src/contexts/AuthContext.tsx:142-156 | guest sign-in clears the user, sets the guest profile (id "guest", the guest email, role guest), stores that same profile and ends loading |
| Identity.GuestNameTrimmed | src/contexts/AuthContext.tsx:146 | a display name with surrounding spaces is stored trimmed |
| Identity.GuestNameDefault | src/contexts/AuthContext.tsx:146 | a blank or missing display name gives "Guest Diner" |
| Identity.GuestSurvivesReload | src/contexts/AuthContext.tsx:35-50 | a guest signed in before a reload is restored, with no user, by the next startup |
| Identity.SignOutSpec | src/contexts/AuthContext.tsx:158-170 | a guest's sign-out clears user, profile and stored entry without calling the backend and never fails; any other sign-out changes no local state and fails iff the backend reports an error |
| Identity.AuthChangeSpec | src/contexts/AuthContext.tsx:56-69 | every event sets the user and ends loading; a sign-out event clears the profile and the stored guest; a sign-in event takes the fetched row and keeps the old profile when the lookup fails |
| Identity.StartupSpec | src/contexts/AuthContext.tsx:34-54 | startup always ends loading; without a session it restores a parseable stored guest, deletes an unparseable one and leaves a blank one; with a session it takes the fetched row |
| Identity.AdminSignInSpec | src/contexts/AuthContext.tsx:91-110 | admin sign-in changes the state only to set an existing admin row as the profile, and then completes; for a returned user it completes iff that row exists with role admin; a failed sign-in reports the error |
| Identity.SignUpSpec | src/contexts/AuthContext.tsx:111-131 | a profile row is written iff the backend returns a user, with that user's id and the given details and never the guest or admin role; sign-up completes iff both calls succeed |
| Identity.Identity.constructor | src/contexts/AuthContext.tsx:29-31 | the provider mounts with no user, no profile, loading, over the stored guest entry |
| Identity.Identity.FetchProfile | src/contexts/AuthContext.tsx:74-89 | the new state is `FetchProfileStep` of the old: the row replaces the profile unless the lookup failed, and loading ends |
| Identity.Identity.Startup | src/contexts/AuthContext.tsx:35-54 | the new state is `StartupStep` of the old |
| Identity.Identity.OnAuthStateChange | src/contexts/AuthContext.tsx:56-69 | the new state is `AuthChangeStep` of the old |
| Identity.Identity.AdminSignIn | src/contexts/AuthContext.tsx:91-110 | the new state and the outcome are `AdminSignInStep` of the old state |
| Identity.Identity.SignInAsGuest | src/contexts/AuthContext.tsx:142-156 | the new state is `SignInAsGuestStep` of the old |
| Identity.Identity.SignOut | src/contexts/AuthContext.tsx:158-170 | the new state and the outcome are `SignOutStep` of the old state |
| Session.HasValidSession | src/lib/sessionManager.ts:7-26 | a session is valid iff the client is configured and the read neither threw nor reported an error and returned a session |
| Session.RefreshSession | src/lib/sessionManager.ts:31-51 | a refresh reports success under exactly the conditions of the validity check |
| Session.SessionExpiry | src/lib/sessionManager.ts:56-78 | an expiry is known iff the client is configured and returns a session whose `expires_at` is present and non-zero; it is that value in milliseconds |
| Session.ShouldRefreshThreshold | src/lib/sessionManager.ts:115-127 | a tick refreshes iff there is a session with a known expiry less than ten minutes away: 599999 ms refreshes, 600000 ms does not |
| Session.TickCatchesWindow | src/lib/sessionManager.ts:112-129 | with ticks 5 minutes apart and a 10-minute threshold, a tick that does not refresh leaves the next one at least 5 minutes before expiry, and a session first seen outside the window is refreshed by a later tick strictly before it expires |
| Session.AutoRefresh.constructor | src/lib/sessionManager.ts:106-110 | a configured client schedules the interval; an unconfigured one schedules nothing |
| Session.AutoRefresh.Tick | src/lib/sessionManager.ts:112-129 | a tick calls refresh iff the interval is still scheduled and the tick's decision is to refresh, counting each call |
| Session.AutoRefresh.RunTicks | src/lib/sessionManager.ts:111-129 | over a series of ticks the refresh calls equal the number of ticks whose decision is to refresh, and none once cancelled |
| Session.AutoRefresh.Cleanup | src/lib/sessionManager.ts:131-132 | the cleanup cancels the interval and refreshes nothing |
| Session.WholeMinutes | src/lib/sessionManager.ts:165 | the minutes are the floor of the milliseconds over 60000 |
| Session.MinutesText | src/lib/sessionManager.ts:165 | a missing or zero difference reads "unknown"; otherwise the floored minutes followed by " minutes" |
| Session.MinutesExamples | src/lib/sessionManager.ts:156-165 | 59999 ms is "0 minutes", and 0 ms is "unknown" |
| Session.MinutesExamplesSigned | src/lib/sessionManager.ts:165 | 600000 ms is "10 minutes", and -1 ms rounds down to "-1 minutes" |
| Session.LastEight | src/lib/sessionManager.ts:167 | `slice(-8)` is the whole text when it is shorter than eight, otherwise its last eight characters |
| Session.MaskToken | src/lib/sessionManager.ts:167 | a present, non-empty token is shown as three stars and its last (at most) eight characters; otherwise nothing is shown |
| Session.MaskTokenExamples | src/lib/sessionManager.ts:167 | "abc" shows as "***abc", a ten-character token keeps its last eight, and an empty token shows nothing |
| Session.GetSessionInfo | src/lib/sessionManager.ts:138-175 | the summary is active iff the client is configured and returns a session; it then carries the masked token and the minutes-left text |
| Session.ClearSession | src/lib/sessionManager.ts:83-100 | after a sign-out that returns, exactly the auth-token and cart keys are removed; an unconfigured client or a throwing sign-out leaves storage as it was |
| AdminPanel.OwnerId | src/pages/Admin/AdminPanel.tsx:57 | there is an owner iff the profile's role is restaurant_owner; it is the user's id when signed in, otherwise the profile's id |
| AdminPanel.DraftDefaults | src/pages/Admin/AdminPanel.tsx:88-96 | a loaded draft has every key; empty or missing times fall back to 09:00 and 23:00; `is_open` falls back to true only when missing, so a closed restaurant stays closed; notes fall back to the empty text |
| AdminPanel.DraftMap | src/pages/Admin/AdminPanel.tsx:88-97 | the draft map has an entry for exactly the ids of the loaded restaurants |
| AdminPanel.DraftMapEntries | src/pages/Admin/AdminPanel.tsx:89-96 | each id's draft is built from the last restaurant in the list carrying that id |
| AdminPanel.AutoSelect | src/pages/Admin/AdminPanel.tsx:84-86 | the first restaurant is selected only when nothing is selected and the list is non-empty; otherwise the selection is kept |
| AdminPanel.ScheduleChangeSpec | src/pages/Admin/AdminPanel.tsx:129-137 | an edit changes exactly one key of one restaurant's draft; all other drafts and the other three keys keep their values, and a complete draft stays complete |
| AdminPanel.ApplySchedule | src/pages/Admin/AdminPanel.tsx:157-169 | the list keeps its length and order; each restaurant with the id takes the draft's four schedule columns, and every other restaurant is unchanged |
| AdminPanel.ApplyScheduleSpec | src/pages/Admin/AdminPanel.tsx:157-169 | saving never changes a restaurant's id, name, cuisine or active flag; other restaurants are untouched; the matching one holds the draft's values |
| AdminPanel.SavedDraftReloads | src/pages/Admin/AdminPanel.tsx:88-96 | a complete draft with non-empty times, once saved, is exactly the draft that loading the saved restaurant builds again |
| AdminPanel.SchedulePanel.constructor | src/pages/Admin/AdminPanel.tsx:44-54 | the panel starts with no restaurants, drafts, saving flags, selection or error |
| AdminPanel.SchedulePanel.FetchRestaurants | src/pages/Admin/AdminPanel.tsx:71-102 | a failure sets only the error (message or fallback); a reply sets the list (missing data is an empty list), the auto-selection and fresh drafts, and clears the error |
| AdminPanel.SchedulePanel.HandleScheduleChange | src/pages/Admin/AdminPanel.tsx:129-137 | only the drafts change, as `ChangeDraft` says |
| AdminPanel.SchedulePanel.SaveSchedule | src/pages/Admin/AdminPanel.tsx:139-176 | without a draft nothing happens; otherwise the saving flag ends false, success writes the draft into the list, and a failure sets the error and keeps the list |
| AdminPanel.EmptyDraftRefused | src/pages/Admin/AdminPanel.tsx:32-40 | the empty draft cannot be submitted as it is |
| AdminPanel.ToggleWritesNegation | src/pages/Admin/AdminPanel.tsx:518-529 | the availability toggle writes every field back unchanged, with the price surviving its trip through text, and negates only availability; it is the Edit draft with that field flipped |
| AdminPanel.MenuComposer.constructor | src/pages/Admin/AdminPanel.tsx:576-581 | the form starts from the draft it is given |
| AdminPanel.MenuComposer.HandleSubmit | src/pages/Admin/AdminPanel.tsx:590-600 | a draft is handed on iff its name, description, price and category are non-empty, and then unchanged; the form empties only when there is no cancel callback |
| MenuManagement.Payload | src/pages/Admin/MenuManagement.tsx:61-69 | every submitted payload marks the item available, whatever its previous state |
| MenuManagement.WriteFor | src/pages/Admin/MenuManagement.tsx:71-86 | a submit updates the edited row iff `editingId` is set (and truthy), and inserts otherwise; either way it sends the form's payload |
| MenuManagement.EditThenSubmit | src/pages/Admin/MenuManagement.tsx:97-108 | editing an item and submitting unchanged writes its own fields back to its own row (price surviving its trip through text) and makes it available |
| MenuManagement.GroupedSpec | src/pages/Admin/MenuManagement.tsx:155-159 | each group holds exactly the items of its category, in menu order |
| MenuManagement.GroupSizes | src/pages/Admin/MenuManagement.tsx:155-159 | the groups together hold one entry per item with one of the three categories, so an item with any other category is in no group |
| MenuManagement.MenuManager.constructor | src/pages/Admin/MenuManagement.tsx:7-20 | the editor starts with no items, loading, the form hidden, nothing being edited and the blank form |
| MenuManagement.MenuManager.FetchMenuItems | src/pages/Admin/MenuManagement.tsx:39-54 | the rows replace the menu (missing data is an empty menu); a failure keeps the menu and notifies; loading ends false |
| MenuManagement.MenuManager.HandleDelete | src/pages/Admin/MenuManagement.tsx:110-125 | nothing is deleted unless the user confirms; only a successful delete notifies success and re-fetches; a failure shows its message or the fallback |
| MenuManagement.MenuManager.ResetForm | src/pages/Admin/MenuManagement.tsx:142-153 | blank fields, category morning, not vegetarian, nothing being edited and the form hidden |
| MenuManagement.MenuManager.HandleEdit | src/pages/Admin/MenuManagement.tsx:97-108 | the form holds the item's fields with the price as text, the item is being edited and the form is shown |
| MenuManagement.MenuManager.HandleSubmit | src/pages/Admin/MenuManagement.tsx:56-95 | the write is `WriteFor` of the old form; only a successful write resets the form and re-fetches; a failure keeps the form and shows its message or the fallback; loading ends false |
| MenuManagement.MenuManager.ToggleAvailability | src/pages/Admin/MenuManagement.tsx:127-140 | writes the negation of the shown status; re-fetches and reports enabled or disabled only on success |
| OwnerOrders.RestaurantName | src/pages/OrderManagement.tsx:56 | the name is that of the first restaurant with the order's id, and absent iff no restaurant has it |
| OwnerOrders.Detailed | src/pages/OrderManagement.tsx:54-76 | one detailed order per fetched order, in order, each carrying its restaurant's name |
| OwnerOrders.RestaurantIds | src/pages/OrderManagement.tsx:39 | the ids of the owner's restaurants in order, or none when the query returned no data |
| OwnerOrders.ReplaceStatusSpec | src/pages/OrderManagement.tsx:95-99 | after a status change the matching orders carry the new status and change in nothing else; every other order is unchanged |
| OwnerOrders.FilteredOrdersSpec | src/pages/OrderManagement.tsx:106 | 'all' shows every order; any other filter keeps, in order, exactly the orders with that status |
| OwnerOrders.DisabledOptions | src/pages/OrderManagement.tsx:108-115 | an order at one of the six button statuses has exactly that button disabled; an order at any other status, such as 'ready', has none |
| OwnerOrders.OwnerOrderQueue.constructor | src/pages/OrderManagement.tsx:21-23 | the queue starts empty, loading, with the 'all' filter |
| OwnerOrders.OwnerOrderQueue.FetchOrders | src/pages/OrderManagement.tsx:32-84 | an owner without restaurants, or a failed query, keeps the list; otherwise the list is the fetched orders with their restaurants' names; loading ends false |
| OwnerOrders.OwnerOrderQueue.SetFilter | src/pages/OrderManagement.tsx:133-145 | the filter becomes the button's value; the orders are unchanged |
| OwnerOrders.OwnerOrderQueue.UpdateOrderStatus | src/pages/OrderManagement.tsx:86-104 | the list changes, as `ReplaceStatus` says, only after a successful write; a failure alerts and keeps the list |
| OwnerOrders.NoRestaurantsShowsNothing | src/pages/OrderManagement.tsx:41-44 | an owner without restaurants ends loaded with no orders |
| AdminOrders.UnreadCount | src/pages/Admin/OrderManagement.tsx:36 | missing data counts zero; otherwise the count never exceeds the number of orders |
| AdminOrders.UnreadCountSpec | src/pages/Admin/OrderManagement.tsx:36 | the unread and read orders add up to all orders; the count is zero iff every order is read, and the whole list iff none is |
| AdminOrders.StatusOptionsMatchOrders | src/pages/Admin/OrderManagement.tsx:59-66 | the admin buttons offer exactly the six order statuses, 'ready' among them |
| AdminOrders.UnreadMarkers | src/pages/Admin/OrderManagement.tsx:76-111 | the NEW badge and the red border appear together, on unread orders only; the banner shows iff some fetched order is unread |
| AdminOrders.AdminOrderQueue.constructor | src/pages/Admin/OrderManagement.tsx:7-9 | the list starts empty, loading, with no unread orders |
| AdminOrders.AdminOrderQueue.FetchOrders | src/pages/Admin/OrderManagement.tsx:27-42 | a failed query keeps the list and the count; a reply sets the list (missing data is none) and its unread count; loading ends false |
| AdminOrders.AdminOrderQueue.UpdateOrderStatus | src/pages/Admin/OrderManagement.tsx:44-57 | the write targets the order's id, and every status write also marks the order read; only a successful one notifies success and re-fetches; a failure shows its message or the fallback |
| Dashboard.Today | src/pages/Admin/Dashboard.tsx:67-70 | missing data gives zeros; otherwise the order count, the revenue summed over the orders and the pending count; pending never exceeds the orders |
| Dashboard.Tally | src/pages/Admin/Dashboard.tsx:109-114 | one entry per distinct ordered name, in order of first occurrence, each with its number of rows |
| Dashboard.TallySpec | src/pages/Admin/Dashboard.tsx:109-114 | the tally's names are distinct, every ordered name has its entry, and every entry's name was ordered at least once |
| Dashboard.CountItems | src/pages/Admin/Dashboard.tsx:109-114 | the counting loop with its map and insertion-ordered keys yields exactly the tally |
| Dashboard.SortByCount | src/pages/Admin/Dashboard.tsx:115 | the sort is a permutation of the entries |
| Dashboard.SortSpec | src/pages/Admin/Dashboard.tsx:115 | the sorted entries run from the largest count down and keep distinct names |
| Dashboard.PopularItems | src/pages/Admin/Dashboard.tsx:114-117 | at most five entries |
| Dashboard.PopularItemsSpec | src/pages/Admin/Dashboard.tsx:114-117 | the popular items run from the largest count down, have distinct ordered names, and each counts its name's rows |
| Dashboard.PopularItemsTopFive | src/pages/Admin/Dashboard.tsx:114-117 | an ordered name left out of the popular items has no more rows than the fifth entry |
| Dashboard.WeeklyRevenue | src/pages/Admin/Dashboard.tsx:84-101 | seven entries, oldest day first, each the revenue of that day's reply (missing data is zero); the last one is today |
| Dashboard.LabelIndex | src/pages/Admin/Dashboard.tsx:162 | every label index is a weekday, 0 to 6 |
| Dashboard.DayLabels | src/pages/Admin/Dashboard.tsx:158-164 | seven labels, the k-th being the weekday of the chart's k-th day |
| Dashboard.DayLabelsSpec | src/pages/Admin/Dashboard.tsx:158-164 | the last label is today's weekday, and each label is the day after the one before it |
| Dashboard.MaxRevenue | src/pages/Admin/Dashboard.tsx:157 | the chart scale is at least 1, bounds every day's revenue, and is 1 or one of those revenues |
| Dashboard.StatusColorSpec | src/pages/Admin/Dashboard.tsx:145-155 | a status is gray iff it is not one of the six order statuses, and distinct statuses have distinct colours |
| Dashboard.DashboardPage.constructor | src/pages/Admin/Dashboard.tsx:18-28 | all figures start at zero, empty, and loading |
| Dashboard.DashboardPage.FetchDashboardData | src/pages/Admin/Dashboard.tsx:47-143 | only a failure of today's query keeps the old figures and reports failure; otherwise each figure is its reply with the fallback, the weekly series and the popular items as specified; loading ends false |
| OwnerDashboard.RestaurantIds | src/pages/OwnerDashboard.tsx:41 | the ids of the owned restaurants, one per restaurant, in order |
| OwnerDashboard.StatsOf | src/pages/OwnerDashboard.tsx:58-64 | total orders is the number of orders (missing data is none), pending counts the pending ones, revenue sums their amounts, and active counts the active restaurants; pending and active never exceed their totals |
| OwnerDashboard.StatsAppend | src/pages/OwnerDashboard.tsx:58-62 | the order count, pending count and revenue of two batches of orders add up to those of the batches together |
| OwnerDashboard.OwnerDashboardPage.constructor | src/pages/OwnerDashboard.tsx:14-22 | the page starts with no restaurants or orders, zero figures, and loading |
| OwnerDashboard.OwnerDashboardPage.FetchDashboardData | src/pages/OwnerDashboard.tsx:32-78 | the restaurants are always stored (missing data is none); the recent orders and the figures are replaced only when there is a restaurant; loading ends false |
| OwnerDashboard.NoRestaurantsKeepsZero | src/pages/OwnerDashboard.tsx:39-43 | an owner without restaurants ends loaded with zero figures and no recent orders |
| RestaurantList.FilterRestaurantsSpec | src/pages/RestaurantList.tsx:42-58 | a restaurant is listed iff it is in the directory, matches the case-insensitive search on name or cuisine when the query is non-empty, and has exactly the chosen cuisine unless 'All' is chosen; the list keeps directory order, and no query with 'All' lists everything |
| RestaurantList.NameMatchesItself | src/pages/RestaurantList.tsx:46-50 | searching for a restaurant's own name always finds it |
| RestaurantList.Cuisines | src/pages/RestaurantList.tsx:60 | the cuisine of each restaurant, position by position |
| RestaurantList.CuisineTypesSpec | src/pages/RestaurantList.tsx:60 | the cuisine choices are 'All' followed by every cuisine of the directory exactly once, in order of first appearance, and nothing else |
| RestaurantDetail.HandleAddToCart | src/pages/RestaurantDetail.tsx:47-65 | a dish is added iff there is a profile whose role is guest, or customer with a signed-in user, and then with this restaurant's id; no profile, a non-customer role and a customer without a user each give their own alert |
| RestaurantDetail.AcceptedAddBindsCart | src/pages/RestaurantDetail.tsx:47-65 | an accepted add keeps the cart's single-restaurant invariant and, unless the shopper declines to replace another restaurant's cart, binds the cart to this restaurant |
| RestaurantDetail.Categories | src/pages/RestaurantDetail.tsx:42 | the category of each dish, position by position |
| RestaurantDetail.CategoryTabsSpec | src/pages/RestaurantDetail.tsx:42 | the tabs are 'All' followed by every category of the menu exactly once, in order of first appearance, and nothing else |
| RestaurantDetail.FilteredItemsSpec | src/pages/RestaurantDetail.tsx:43-45 | the 'All' tab shows the whole menu; any other tab shows exactly the dishes of that category, in menu order |
| Home.TimeCategory | src/pages/Home.tsx:83-88 | morning from 5 up to 12 o'clock, afternoon from 12 up to 17, dinner for every other hour; each boundary in both directions |
| Home.TimeCategoryTotal | src/pages/Home.tsx:83-92 | every hour of the day selects one of the menu's categories |
| Home.FilteredItemsSpec | src/pages/Home.tsx:69-71 | a dish is shown iff its category is the selected one or 'all', in menu order |
| Home.ItemQuantity | src/pages/Home.tsx:73-76 | the quantity on the dish's cart line, or 0 without one |
| Home.ItemQuantitySpec | src/pages/Home.tsx:73-76 | in a valid cart the quantity is never negative and is positive exactly when the dish has a line |
| Home.MinusSpec | src/pages/Home.tsx:203-211 | minus lowers the dish's quantity by one, removing the line at one, lowers the item count by one, does nothing for an absent dish, and keeps the cart valid |
| Home.MinusSeveral | src/pages/Home.tsx:206-207 | above one, the quantity update lowers the line by one and the item count with it, keeping the cart valid |
| Home.MinusLast | src/pages/Home.tsx:208-209 | at one, the removal leaves no line for the dish and one item fewer, keeping the cart valid |
| Home.HomeAddBreaksCart | src/pages/Home.tsx:78-81 | as written, the first add to an empty cart breaks the cart's invariant, after which checkout refuses every non-guest; a cart already bound to a restaurant always conflicts |
| Home.HomeAddKeepsCart | src/pages/Home.tsx:78-81 | adding with the dish's own restaurant keeps the cart valid, never conflicts with a cart of that restaurant, and leaves the dish in a cart bound to it |
| CustomerOrders.Split | src/pages/CustomerOrders.tsx:85 | splitting on '_' always gives at least one word |
| CustomerOrders.Capitalize | src/pages/CustomerOrders.tsx:85 | capitalising a word keeps its length |
| CustomerOrders.CapitalizeAll | src/pages/CustomerOrders.tsx:85 | every word is capitalised, position by position |
| CustomerOrders.TitledChars | src/pages/CustomerOrders.tsx:84-86 | the character reading turns each '_' into a space and upper-cases exactly the characters that start a word |
| CustomerOrders.StatusTextIsTitled | src/pages/CustomerOrders.tsx:84-86 | split, capitalise and join give the same text as the character reading |
| CustomerOrders.StatusTextSpec | src/pages/CustomerOrders.tsx:84-86 | the status text has the status's length, no '_', a space exactly where the status had '_' or a space, and each word's first character upper-cased with the rest kept |
| CustomerOrders.StatusTextExample | src/pages/CustomerOrders.tsx:84-86 | 'out_for_delivery' is shown as 'Out For Delivery' |
| CustomerOrders.StatusTextIdempotent | src/pages/CustomerOrders.tsx:84-86 | writing out an already written-out status changes nothing |
| CustomerOrders.StatusColorSpec | src/pages/CustomerOrders.tsx:88-105 | the six statuses get six different badge colours and every other status is gray |
| CustomerOrders.ReadyIsGray | src/pages/CustomerOrders.tsx:88-105 | the stored status 'ready' falls through to gray |
| CustomerOrders.StatusIconSpec | src/pages/CustomerOrders.tsx:65-82 | the icon is gray exactly when the badge is, and the truck stands for out-for-delivery alone |
| RouteGuard.Guard | src/components/AdminRouteGuard.tsx:11-104 | a spinner while auth loads, the login prompt without a user, access only for a user whose role is the required one or superadmin, and the denial page for every other user |
| RouteGuard.GuardMonotone | src/components/AdminRouteGuard.tsx:11-104 | a superadmin passes both guards, whoever passes the superadmin guard passes the admin guard, and a plain admin is denied a superadmin page |
| RouteGuard.HasPermission | src/components/AdminRouteGuard.tsx:125-136 | the admin permission holds for admins and superadmins, the superadmin permission for superadmins only |
| RouteGuard.PermissionSpec | src/components/AdminRouteGuard.tsx:125-136 | superadmin permission implies admin permission, and the hook grants exactly what the loaded guard lets through |
| AdminLogin.SubmitOutcome | src/pages/Admin/AdminLogin.tsx:17-59 | a wrong email or, with the right email, a wrong password is refused before any sign-in; `signIn` is called iff both match; success follows a clean sign-in, or a failure whose message mentions the schema and not invalid credentials; other failures show their message or 'Failed to sign in' |
| AdminLogin.CredentialsBeforeSchema | src/pages/Admin/AdminLogin.tsx:47-52 | a failure mentioning invalid credentials is never bypassed, even when it also mentions the schema |
| AdminLogin.AdminLoginForm.constructor | src/pages/Admin/AdminLogin.tsx:11-33 | the form starts empty and not loading, and accepts only the program's admin pair (`AdminEmail`, `AdminPassword`) |
| AdminLogin.AdminLoginForm.SetEmail | src/pages/Admin/AdminLogin.tsx:11 | the email field takes the typed value; nothing else changes |
| AdminLogin.AdminLoginForm.SetPassword | src/pages/Admin/AdminLogin.tsx:12 | the password field takes the typed value; nothing else changes |
| AdminLogin.AdminLoginForm.HandleSubmit | src/pages/Admin/AdminLogin.tsx:17-59 | the submission's outcome is the one above for the typed fields; the fields are kept and loading ends false on every path |
| UserProfile.ProfileUpdatePlan | src/components/UserProfile.tsx:28-55 | without a profile id nothing is written or shown; otherwise the typed name and phone are written for that id and the success or failure notice (the error's message or 'Failed to update profile') is shown |
| UserProfile.PasswordPlan | src/components/UserProfile.tsx:57-89 | a mismatch or a password shorter than 6 is refused with its own notice and nothing is sent; otherwise the new password is sent, and the success notice is shown iff the update succeeds |
| UserProfile.MismatchFirst | src/components/UserProfile.tsx:60-68 | passwords that both differ and are too short are reported as a mismatch |
| UserProfile.ProfileDialog.constructor | src/components/UserProfile.tsx:17-26 | the form starts from the profile's name and phone, or empty, with empty password fields |
| UserProfile.ProfileDialog.SetPasswords | src/components/UserProfile.tsx:22-26 | the three password fields take the typed values; nothing else changes |
| UserProfile.ProfileDialog.UpdateProfile | src/components/UserProfile.tsx:28-55 | the write and notice are those of the plan; the form fields are untouched and loading ends false once the write was attempted |
| UserProfile.ProfileDialog.ChangePassword | src/components/UserProfile.tsx:57-89 | the sent password and notice are those of the plan; a refused check changes nothing, a successful change clears the three fields, a failed one keeps them |
| AuthModal.ModeToggled | src/components/AuthModal.tsx:53-57 | the mode toggle swaps login and sign-up and ends admin login |
| AuthModal.AdminToggled | src/components/AuthModal.tsx:59-63 | the admin toggle flips admin login and drops plain login |
| AuthModal.TogglesTwice | src/components/AuthModal.tsx:53-63 | two admin toggles restore the admin flag but land on sign-up; two mode toggles restore the login flag with admin login off |
| AuthModal.Dispatch | src/components/AuthModal.tsx:28-35 | admin login calls the admin sign-in, else login calls sign-in, else sign-up with the name and role; every call carries the typed email and password |
| AuthModal.AfterCall | src/components/AuthModal.tsx:36-42 | success clears every field; failure keeps the fields and sets a non-empty error line, the thrown message or the fallback |
| AuthModal.Title | src/components/AuthModal.tsx:91-96 | the heading names the mode, and 'Join Our Kitchen' appears exactly when the full-name field does |
| AuthModal.Render | src/components/AuthModal.tsx:21-96 | a closed dialog renders nothing; an open one shows the heading of its mode |
| AuthModal.TitleMatchesDispatch | src/components/AuthModal.tsx:28-96 | each heading corresponds to exactly one of the three calls a submission makes |
| AuthModal.AuthDialog.constructor | src/components/AuthModal.tsx:11-19 | the dialog starts in login mode with blank fields, role 'customer', and not loading |
| AuthModal.AuthDialog.SetFields | src/components/AuthModal.tsx:12-14 | the typed email, password and name replace the old ones; nothing else changes |
| AuthModal.AuthDialog.ResetForm | src/components/AuthModal.tsx:45-51 | the fields are cleared and the role reset to 'customer'; the mode stays |
| AuthModal.AuthDialog.ToggleMode | src/components/AuthModal.tsx:53-57 | the mode becomes the toggled one and the fields are cleared |
| AuthModal.AuthDialog.ToggleAdminLogin | src/components/AuthModal.tsx:59-63 | the mode becomes the admin-toggled one and the fields are cleared |
| AuthModal.AuthDialog.HandleSubmit | src/components/AuthModal.tsx:23-43 | the call is the dispatched one for the typed fields; the dialog closes iff the call succeeds; the fields end as after the call; the mode is kept and loading ends false |
| AuthModal.AuthDialog.HandleGuestContinue | src/components/AuthModal.tsx:65-77 | the guest is named by the typed full name; the dialog closes iff that succeeds; the fields end as after the call with 'Unable to continue as guest' as fallback |
| App.MainPage | src/App.tsx:63-90 | the directory for 'restaurants', the selected restaurant's page for 'restaurant-detail' with a selection, checkout for 'checkout', the order history only for a customer and the owner pages only for an owner, otherwise nothing |
| App.BlankMainArea | src/App.tsx:63-90 | a detail view without a selection, the order-management view, unknown views, and orders or dashboard without a profile all leave the main area empty |
| App.AppContent.constructor | src/App.tsx:18-21 | the shell starts on the directory with nothing selected and both overlays closed |
| App.AppContent.Render | src/App.tsx:24-90 | only the spinner while auth loads; otherwise the main page of the current view and the two overlays as they are |
| App.AppContent.SelectRestaurant | src/App.tsx:32-35 | the selected restaurant's page opens, whatever the profile; the overlays are unchanged |
| App.AppContent.BackToRestaurants | src/App.tsx:37-40 | the selection is cleared and the directory shown; the overlays are unchanged |
| App.AppContent.Checkout | src/App.tsx:42-44 | the view becomes checkout; nothing else changes |
| App.AppContent.CheckoutSuccess | src/App.tsx:46-48 | the view becomes the order history; nothing else changes |
| App.AppContent.CheckoutBack | src/App.tsx:76 | checkout's back button opens the cart and keeps the view |
| App.AppContent.ViewChange | src/App.tsx:50-52 | any string the header hands over becomes the view; nothing else changes |
| App.AppContent.SetAuthModal | src/App.tsx:57-95 | the sign-in overlay opens or closes; nothing else changes |
| App.AppContent.SetCart | src/App.tsx:58 | the cart overlay opens or closes; nothing else changes |
| App.SelectThenBack | src/App.tsx:32-72 | selecting a restaurant shows its page, and going back shows the directory again |
| FileUpload.Issues | src/lib/validations.ts:123-136 | the upload schema reports no issue exactly when the file is at most 5MB, has an allowed image type, and any alt text is 3 to 100 characters long |
| FileUpload.FirstIssue | src/components/ui/FileUpload.tsx:37 | the first reported issue, and no error exactly when there is none |
| FileUpload.ValidateFileAsWrittenRefusesAll | src/components/ui/FileUpload.tsx:31-41 | validating with an empty alt text refuses every file, and a file that passes its own checks is reported as having too short an alt text |
| FileUpload.ValidateFile | src/components/ui/FileUpload.tsx:31-41 | a file is accepted iff it is at most 5MB and of an allowed image type, which is the schema's verdict without alt text; an oversized file is reported as too large first, then a wrong type |
| FileUpload.Sanitize | src/components/ui/FileUpload.tsx:45 | sanitising keeps the name's length |
| FileUpload.SanitizeSpec | src/components/ui/FileUpload.tsx:45 | allowed characters stay in place, every other character becomes '_', and sanitising twice is sanitising once |
| FileUpload.FilePathSpec | src/components/ui/FileUpload.tsx:43-47 | the path is the folder, the time stamp, '_' and the sanitised name, and past the folder it has no '/' |
| FileUpload.ProgressSpec | src/components/ui/FileUpload.tsx:78-80 | a tick from within 0 to 90 never goes back and never passes 90, and from 0 the bar stands at 20 per tick until it stays at 90 |
| FileUpload.TicksBounded | src/components/ui/FileUpload.tsx:78-80 | any number of ticks from within 0 to 90 stays between the start and 90 |
| FileUpload.TicksFromZero | src/components/ui/FileUpload.tsx:78-80 | ticks from a multiple of 20 continue in steps of 20, capped at 90 |
| FileUpload.Uploader.constructor | src/components/ui/FileUpload.tsx:22-28 | the widget starts idle, with no selection, no preview, the bar at 0 and no progress interval running |
| FileUpload.Uploader.ResetUploadState | src/components/ui/FileUpload.tsx:101-108 | the selection and preview are cleared and the bar set to 0 |
| FileUpload.Uploader.HandleFileSelection | src/components/ui/FileUpload.tsx:49-66 | as written: the error is that of `validateFile` with its empty alt text, so every file is refused and the selection never changes |
| FileUpload.Uploader.HandleFileSelectionIntended | src/components/ui/FileUpload.tsx:49-66 | the selection with the intended validation: the error is `ValidateFile`'s; only an accepted file becomes the selection |
| FileUpload.Uploader.PreviewLoaded | src/components/ui/FileUpload.tsx:61-63 | the read image becomes the preview; nothing else changes |
| FileUpload.Uploader.HandleDrag | src/components/ui/FileUpload.tsx:110-118 | entering or moving over starts the drag highlight, leaving ends it, other events keep it |
| FileUpload.Uploader.HandleDrop | src/components/ui/FileUpload.tsx:120-131 | a drop always ends the highlight and never changes the selection; while disabled or without files there is no error; otherwise only the first file goes through the as-written selection and is refused |
| FileUpload.Uploader.HandleFileInputChange | src/components/ui/FileUpload.tsx:133-138 | the selection never changes; without files there is no error; otherwise only the first file goes through the as-written selection and is refused |
| FileUpload.Uploader.StartUpload | src/components/ui/FileUpload.tsx:68-80 | without a selection nothing happens; otherwise uploading starts at 0 under the path of the selected file for the given time, and one more progress interval runs |
| FileUpload.Uploader.Tick | src/components/ui/FileUpload.tsx:78-80 | one interval firing advances the bar by one step; with no interval running the bar stands still |
| FileUpload.Uploader.UploadReturned | src/components/ui/FileUpload.tsx:82-98 | success clears the interval, sets the bar to 100 and keeps the selection; failure reports the error's message or 'Upload failed' and resets, but leaves the interval running; uploading ends either way |
| FileUpload.Uploader.CompleteUpload | src/components/ui/FileUpload.tsx:87-90 | the completion hands over the URL and path, then the widget is reset |
| FileUpload.FailedUploadKeepsTicking | src/components/ui/FileUpload.tsx:78-98 | after a failed upload has reset the widget, the interval it left running still moves the bar to 20 with nothing selected or uploading |
| Progress.ProgressValue | src/components/ui/progress.tsx:9-10 | the drawn percentage lies between 0 and 100: an omitted value draws 0, a value in range draws itself, values below and above clamp to the ends |
| Progress.ClampIdempotent | src/components/ui/progress.tsx:10 | drawing an already drawn percentage draws it unchanged |
| Progress.ClampMonotone | src/components/ui/progress.tsx:10 | a larger value never draws a shorter bar |

## Left out

- Backend calls (queries, inserts, updates, deletes, auth calls, storage upload) are not modelled: each handler takes the call's answer as a parameter, and the write it would send is returned or stated.
- Realtime channel subscriptions on the dashboard, menu, order and home pages are left out: they are event plumbing that only triggers a refetch.
- The `Promise.all` enrichment of orders with customer names and items (src/pages/OrderManagement.tsx:54-76, src/pages/CustomerOrders.tsx:36-55) is concurrent I/O. `OwnerOrders.Detailed` keeps only the restaurant-name lookup and takes the rest as given.
- Async interleavings are left out: each handler runs to completion as one step. `setTimeout`, `setInterval` and the file reader's `onload` are separate methods called as events.
- Floating point is left out, and money is whole cents.
- `Common.ParsePrice` accepts only a plain decimal with at most two decimals and returns `None` otherwise. `Number('')` is 0 in JavaScript, but `ParsePrice("")` is `None`.
- `Progress.ProgressValue` works on `real`, so NaN and infinities are not modelled.
- `formatFileSize` (src/components/ui/FileUpload.tsx:140-146) is left out: it uses `Math.log` and `Math.pow`.
- Dates and clocks are parameters: `Date.now()`, the hour of the day, the weekday index and the day boundaries. `toISOString` and `toLocaleDateString` text is not modelled.
- `sanitizeInput` (src/lib/security.tsx:41-48) is left out: its regular expressions rely on backtracking.
- `crypto.getRandomValues` is left out, and the random bytes are a parameter. Only their hex encoding is modelled.
- The schema library's e-mail, uuid and URL checks are parameters (`isEmail`, `isUuid`, `isUrl`).
- Strings are sequences of characters, not UTF-16 code units.
- Case mapping and the `\s` class are ASCII plus the JavaScript whitespace characters listed in `Common`. Unicode case folding is not modelled.
- `JSON.parse` of the stored guest entry is abstracted: the entry is either a profile it was written as, a malformed text, or a blank value.
- `localStorage` is a field of the auth state (the guest entry), or a map from keys to texts (`Session.ClearSession`).
- `Object.entries` order is modelled as insertion order. JavaScript lists integer-like keys first, and that is not modelled.
- `Dashboard.SortByCount`: the sort is proved ordered by count and a permutation, but not stable, so the order of tied entries is not stated.
- `Dashboard.Tally` and `Dashboard.CountItems` count into a map, while the source counts into a plain object. For a name such as `__proto__` or `constructor`, `itemCounts[name] || 0` reads an inherited member instead of 0. `__proto__` then never becomes an entry, and `constructor` gets a text instead of a count. The model counts every name from 0.
- `getStatusColor` looks up a plain object, so a key such as `constructor` would reach `Object.prototype`; the model returns gray for every unknown status.
- Presentation is left out: JSX markup, styling, `alert`, notifications as UI, `history` and `location`. `window.confirm` is a boolean parameter.
- Components that hold no logic are left out: the restaurant card, the menu-item card, the notification toast and the cart drawer, whose cart logic lives in the cart context.
- `src/components/Header.tsx`, `src/components/AuthModal_OLD.tsx` and `src/components/AdminSetup.tsx` are not part of this model: they call context members the auth context does not provide.
- `typeof window` checks and the unconfigured-client warnings (`SUPABASE_CONFIG_ERROR`) are left out. `Session` has a `configured` flag, and a client that is not configured reports no session and schedules nothing.
- The rate limiter is a fixed window, as the code writes it: a window opens at the first attempt and is replaced once it has expired. It is not a sliding window.
- The login and sign-up limiters are defined but no sign-in path calls them, so the model does not throttle `Identity` either.
- `OwnerDashboard`: adding a restaurant (`handleAddRestaurant`, src/pages/OwnerDashboard.tsx:80-105) is left out. It is a form insert followed by a refetch.
- `AdminPanel`: the page's menu fetch and its create, update and delete calls are backend passthroughs. Only the writes they would send are modelled (`ApplySchedule`, `MenuComposer.HandleSubmit`, `ToggleWritesNegation`).
- `AdminPanel`: the `ownerId` effect's re-run guard is not modelled.
- `Identity.AdminSignInSpec`: "unchanged" is about the local auth state only. After 'Not authorized as admin' the backend session opened by `signInWithPassword` (src/contexts/AuthContext.tsx:93) stays open, and the next auth event installs the refused user and profile (`Identity.AuthChangeStep`). Backend sessions are not part of the model.
- `AdminLogin`: the admin email and password are abstract constants (`AdminLogin.AdminEmail`, `AdminLogin.AdminPassword`). Their literal values are not part of the model, and no property depends on them.
- `AuthModal.AuthDialog`: the role select is modelled only as the reset value 'customer'. The dialog offers no control that changes it in the current code.
- `UserProfile.ProfileDialog`: `userProfile` comes from a context member that the auth context does not provide, so the profile is a parameter of each handler. As written it is always undefined: the form starts blank (the constructor with `None`) and `handleUpdateProfile` never writes (`UserProfile.ProfileUpdatePlan` with no id gives no write and no notice).
- `OwnerOrders`: the owner's status buttons offer 'out_for_delivery' and no 'ready'. This differs from the order status set, and the code's list is followed.
- `CartEngine.Cart.AddToCart`: the single-restaurant invariant is promised only when the old restaurant id and the new one are non-empty. An empty id is falsy in the source, which makes the later conflict check skip it.
- `MenuManagement.MenuManager.HandleDelete`: the confirmation dialog's answer is a parameter.

## Findings

| source | as written | input that shows it | evidently intended | confidence | as-written member | corrected member |
|---|---|---|---|---|---|---|
| src/pages/Home.tsx:78-81 | the add and plus buttons call `addToCart(item)` without a restaurant id, so the cart's restaurant id becomes `undefined` | an empty cart and any dish: the cart then holds one line but belongs to no restaurant, and checkout then refuses it for every shopper who is not a guest; latent in the shipped app, since `App.tsx` never renders `Home` (`App.MainPage` has no such page) | `addToCart(item, item.restaurant_id)`, which binds the cart to the dish's restaurant | not executed | Home.HomeAddBreaksCart | Home.HomeAddKeepsCart |
| src/components/ui/FileUpload.tsx:33 | `validateFile` parses `{ file, altText: '' }`, and the schema's alt text must have at least 3 characters when present | a 1024-byte `image/jpeg` file: reported as "Alt text must be at least 3 characters", so no file can ever be selected; the widget (`FileUpload.Uploader.HandleFileSelection`, `HandleDrop`, `HandleFileInputChange`) is modelled as written and never selects, and `FileUpload.Uploader.HandleFileSelectionIntended` is the corrected handler | validate the file without an alt text, so only size and type decide | not executed | FileUpload.ValidateFileAsWrittenRefusesAll | FileUpload.ValidateFile |
