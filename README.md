# MenuFácil: a verified model of the session and menu logic

MenuFácil is a single-page digital menu for restaurants. A guest scans a table's
QR code and lands on that table's menu: the guest filters the dishes, fills a cart,
calls a waiter or asks for the bill, and sends an order under a name. The owner
signs the restaurant up in a three-step wizard and then manages the catalog on a
dashboard. There the owner deletes dishes, toggles their availability, creates and
edits them, follows the orders newest first and moves each order one status forward.
The browser's key-value store keeps three things: the catalog, the restaurant profile
and a per-day counter of customer visits. The waiter requests, the cart and the
orders live only in the session's memory (App.tsx:17-19) and are lost on reload.

The model follows the program's structure:

- `types.dfy` (`Types`) holds the records: menu item, restaurant profile, waiter
  request, cart line and order. Optional fields are `Option`s. Quantities and timestamps
  are naturals. Prices, preparation times and order totals are integers, because
  the owner's number inputs accept negative values.
- `constants.dfy` (`Constants`) holds the category list, the seed profile and the
  seed catalog.
- `text.dfy` (`Text`) holds the string operations the screens use, with JavaScript's
  meaning:
  - `toLowerCase`, on ASCII letters;
  - `includes`, with its link to "occurs at some position";
  - `length`, counted in UTF-16 code units;
  - `trim`, with the ECMAScript whitespace set.
- `seqs.dfy` (`Seqs`) defines JavaScript's `filter` once, with its properties: the
  result is an order-preserving subsequence, holds exactly the entries that pass,
  keeps every copy of each of them, and is as long as the number of passing
  positions. Every `filter` in the program is an instance of it.
- `storage.dfy` (`Storage`) models the persistence shim as a class over an abstract
  map from the three store keys to their values. It also defines the per-day view
  counter.
- `session.dfy` (`Session`) models App.tsx as a class `App` with its fields:
  - the screen shown, the splash flag, the catalog and the profile;
  - the optional table;
  - the waiter requests, the cart and the orders.
  Its methods are the handlers and the screen transitions. The list updates behind
  them are pure functions.
- `customer.dfy` (`Customer`) models the guest's screen as a class `CustomerMenu`.
  - The screen holds its own local state.
  - It holds the session it is shown in and writes the session's cart, as the
    `setCart` prop does.
  - Filtering, the cart total and the item count are pure functions with lemmas.
- `admin.dfy` (`Admin`) models the owner's dashboard as a class `AdminDashboard` over
  the same session.
  - The catalog edits are pure functions with lemmas.
  - So are the two counters, the newest-first sort and the next-status rule.
- `signup.dfy` (`Signup`) models the wizard as a class `Registration`: a step number
  plus the form, with the per-step guard.

The effects the program obtains from the browser become parameters of the model:

- `Date.now()`: the id or timestamp argument that each operation takes;
- the ISO date key: the `today` argument;
- `window.confirm`: a `confirmed` argument;
- the URL's `table` parameter: an optional argument of the session constructor;
- the language-model reply: a `Generation` argument, either text or failure.

`alert` has no effect on state and is left out.

## Model

| member | source | states |
|---|---|---|
| Constants.CATEGORIES | constants.ts:3 | the four categories, in the order the tabs and the form's select list them |
| Constants.INITIAL_RESTAURANT_INFO | constants.ts:5-11 | the seed profile, with no slogan and no kind |
| Constants.INITIAL_MENU | constants.ts:13-71 | the six seed dishes |
| Constants.InitialMenuIdsDistinct | constants.ts:13-71 | the six seed dishes have pairwise distinct ids |
| Text.Lower | components/CustomerMenu.tsx:78-79 | lowercasing keeps the length and lowercases each character on its own (ASCII letters) |
| Text.LowerIdempotent | components/CustomerMenu.tsx:78-79 | lowercasing twice equals lowercasing once |
| Customer.SearchIgnoresTermCase | components/CustomerMenu.tsx:78-79 | a search term and its lowercased form select the same dishes |
| Text.ContainsIff | components/CustomerMenu.tsx:78-79 | `includes` holds exactly when the search text occurs at some position (both directions) |
| Text.Contains | components/CustomerMenu.tsx:78-79 | a string contains only search texts no longer than itself |
| Text.ContainsEmpty | components/CustomerMenu.tsx:78-79 | the empty search text is contained in every string |
| Text.IsJsWhitespace | components/CustomerMenu.tsx:62 | the characters `trim` removes: ECMAScript's WhiteSpace and LineTerminator code points |
| Text.FirstNonWhitespace | components/CustomerMenu.tsx:62 | the scan stops at the first position holding no whitespace, or at the end, and passes only whitespace on the way |
| Text.EndOfNonWhitespace | components/CustomerMenu.tsx:62 | the backward scan stops just after the last position holding no whitespace, or at its lower bound, and passes only whitespace on the way |
| Text.Trim | components/CustomerMenu.tsx:62 | the result neither starts nor ends with whitespace, and it is the input with only whitespace removed on the two sides |
| Text.IsBlank | components/CustomerMenu.tsx:449 | `!name.trim()`: the trimmed name is empty |
| Text.BlankIffAllWhitespace | components/CustomerMenu.tsx:449-452 | `!name.trim()` holds exactly when the name is empty or all whitespace |
| Text.Utf16Length | components/Registration.tsx:37 | `length` counts at least one and at most two code units per character |
| Text.Utf16LengthAppend | components/Registration.tsx:37 | the length of a concatenation is the sum of the lengths |
| Text.Utf16LengthOfBmp | components/Registration.tsx:37 | on text inside the Basic Multilingual Plane `length` equals the number of characters |
| Storage.MenuOf | services/storageService.ts:9-16 | the menu read is the stored one when the key is present and the seed catalog otherwise |
| Storage.SeedMenu | services/storageService.ts:11-14 | after the first read the menu key is present, reads as before and every other key is untouched |
| Storage.InfoOf | services/storageService.ts:22-29 | the profile read is the stored one when the key is present and the seed profile otherwise |
| Storage.SeedInfo | services/storageService.ts:24-27 | after the first read the profile key is present, reads as before and every other key is untouched |
| Storage.ViewsOf | services/storageService.ts:37 | the counters are the stored map when the key is present and the empty object otherwise |
| Storage.DayCount | services/storageService.ts:45 | a recorded day reads its count, and a positive count means the day was recorded |
| Storage.Bump | services/storageService.ts:38 | the day's counter goes up by one from its old value, or becomes 1 when absent; every other day keeps its counter |
| Storage.StorageService.constructor | services/storageService.ts:8 | a browser profile starts with nothing stored |
| Storage.StorageService.GetMenu | services/storageService.ts:9-16 | returns the stored menu or the seed catalog, and writes the seed catalog only when the key was absent |
| Storage.StorageService.SaveMenu | services/storageService.ts:18-20 | the menu key holds the given menu and nothing else changes |
| Storage.StorageService.GetRestaurantInfo | services/storageService.ts:22-29 | returns the stored profile or the seed profile, and writes the seed profile only when the key was absent |
| Storage.StorageService.SaveRestaurantInfo | services/storageService.ts:31-33 | the profile key holds the given profile and nothing else changes |
| Storage.StorageService.IncrementViews | services/storageService.ts:35-40 | the counter map is read (empty when absent), bumped for `today` and written back; the other keys are untouched |
| Storage.StorageService.GetTodayViews | services/storageService.ts:42-46 | today's counter, or 0 when today has no entry; the store is unchanged |
| Storage.GetMenuSeedsOnce | services/storageService.ts:9-16 | with the key absent the seed catalog is returned; a later read returns the same menu and seeds nothing more |
| Storage.SaveThenGetMenu | services/storageService.ts:9-20 | a save followed by a read returns the saved menu, and the read writes nothing |
| Storage.GetRestaurantInfoSeedsOnce | services/storageService.ts:22-29 | with the key absent the seed profile is returned; a later read returns the same profile |
| Storage.SaveThenGetRestaurantInfo | services/storageService.ts:22-33 | a save followed by a read returns the saved profile, and the read writes nothing |
| Storage.WritesAreIndependent | services/storageService.ts:4-6 | writing any one of the three keys leaves what the other two readers return unchanged |
| Storage.BumpTimesCounts | services/storageService.ts:35-46 | from no entry for the day, `n` visits on that day read back as `n`, and every other day reads as before |
| Storage.ViewCounterScenario | services/storageService.ts:35-46 | a fresh store reads 0; three visits read 3; the next day starts at 1 while the previous day keeps 3 |
| Session.WithoutRequest | App.tsx:53-55 | resolving keeps the other requests in their order, every copy of each, and drops exactly the requests with that id; with no such id the queue is unchanged |
| Session.NewRequest | App.tsx:43-49 | a new request is pending and carries the given id, table, kind and time |
| Session.UpdateStatus | App.tsx:73-75 | the length is kept, the orders with that id get the new status and no other change, and every other order is untouched |
| Session.RequestThenResolve | App.tsx:43-55 | a request with an id no queued request has, once resolved, gives back the earlier queue |
| Session.UpdateStatusAcceptsRegression | App.tsx:73-75 | the status update makes no forward-only check: a delivered order can be put back to pending |
| Session.App.HasTable | App.tsx:42 | the truthiness of `tableId`: present and not the empty string |
| Session.App.constructor | App.tsx:10-39 | on mount the profile and then the menu are read, each seeded when absent; a non-empty table parameter is kept; the splash screen shows with empty queues |
| Session.App.FinishSplash | App.tsx:26-35 | when the splash ends with a table, the customer view opens and the view effect counts one visit for today; without a table the landing screen stays and nothing is stored |
| Session.App.StartRegistration | App.tsx:151 | 'Criar Menu Grátis' opens the wizard |
| Session.App.OpenDemoMenu | App.tsx:158-164 | 'Ver Menu Demo' opens the customer view and counts one visit |
| Session.App.OpenAdmin | App.tsx:167 | 'Acesso Admin (Demo)' opens the dashboard with no credential check |
| Session.App.CancelRegistration | App.tsx:127 | cancelling the wizard returns to the landing screen |
| Session.App.Logout | App.tsx:191 | logging out returns to the landing screen |
| Session.App.RequestWaiter | App.tsx:41-51 | with no table nothing changes; otherwise one pending request for that table and kind goes in front of the earlier ones |
| Session.App.ResolveRequest | App.tsx:53-55 | the queue becomes the queue without that id |
| Session.App.PlaceOrder | App.tsx:57-71 | with no table neither the orders nor the cart change; otherwise one pending order with the given items, total and name goes in front, and the cart is emptied |
| Session.App.UpdateOrderStatus | App.tsx:73-75 | the orders become the status update of the old orders |
| Session.App.CompleteRegistration | App.tsx:77-82 | the new profile is kept and stored, and the dashboard opens |
| Session.App.UpdateInfo | App.tsx:84-87 | the new profile is kept and stored |
| Session.App.ExitTable | App.tsx:89-97 | once confirmed, the table is dropped and the landing screen shows; when declined nothing changes |
| Customer.Matches | components/CustomerMenu.tsx:77-80 | a listed dish is in the chosen tab and the search text is no longer than its name or description; 'Todos' with an empty search passes every dish |
| Customer.FilterItems | components/CustomerMenu.tsx:75-82 | the result is an order-preserving subsequence of the menu that keeps every copy of each matching entry; an entry is listed exactly when it matches the category tab and contains the lowercased search text in its lowercased name or description |
| Seqs.Filter | components/CustomerMenu.tsx:76-81 | `Array.prototype.filter`: the entries that pass, in order; every filter row is an instance |
| Customer.LineTotal | components/CustomerMenu.tsx:88 | a line amounts to nothing exactly when the dish is free or no unit is asked for, and never to a negative amount for a non-negative price |
| Customer.CartTotal | components/CustomerMenu.tsx:88 | when no price is negative, no line amounts to more than the total, and the total is 0 exactly when every line amounts to 0 |
| Customer.NegativeLineLowersTotal | components/AdminDashboard.tsx:565-569 | a dish with a negative price, which the price input accepts, lowers the total it is added to |
| Customer.CartItemCount | components/CustomerMenu.tsx:89 | no line asks for more units than the count, and the count is 0 exactly when every line asks for none |
| Customer.FilterAllShowsMenu | components/CustomerMenu.tsx:75-82 | the 'Todos' tab with an empty search lists the whole menu, in order |
| Customer.CartTotalAppend | components/CustomerMenu.tsx:88-89 | the total and the item count of two joined carts are the sums of theirs |
| Customer.CartTotalSingle | components/CustomerMenu.tsx:88-89 | a one-line cart totals price times quantity and counts its quantity |
| Customer.AddLineRaisesTotals | components/CustomerMenu.tsx:88-89 | appending a line adds its price times quantity to the total and its quantity to the count |
| Customer.SplitAround | components/CustomerMenu.tsx:88-89 | the total and the item count of a cart split into the part before line `i`, that line, and the part after |
| Customer.RemoveLineLowersTotals | components/CustomerMenu.tsx:68-72 | removing line `i` lowers the total by exactly that line's amount and the count by its quantity |
| Customer.ItemCountAtLeastLines | components/CustomerMenu.tsx:89 | with every quantity at least 1, the badge counts at least one unit per line |
| Customer.CartScenario | components/CustomerMenu.tsx:88 | two units of the first seed dish total 17000 |
| Customer.CustomerMenu.constructor | components/CustomerMenu.tsx:20-31 | the screen opens on 'Todos' with an empty search, no dish open, quantity 1 and empty note and name |
| Customer.CustomerMenu.SelectCategory | components/CustomerMenu.tsx:147-159 | the tab becomes the chosen one |
| Customer.CustomerMenu.SetSearchTerm | components/CustomerMenu.tsx:136 | the search text becomes the typed one |
| Customer.CustomerMenu.OpenItem | components/CustomerMenu.tsx:34-39 | opening a dish resets the quantity to 1 and clears the note |
| Customer.CustomerMenu.CloseItem | components/CustomerMenu.tsx:282 | the dish closes |
| Customer.CustomerMenu.CanOrderSelected | components/CustomerMenu.tsx:336 | the cart controls of the open dish are shown only at a table and for an available dish |
| Customer.CustomerMenu.DecrementQuantity | components/CustomerMenu.tsx:353-356 | shown only at a table for an available dish; the quantity drops by one but never below 1 |
| Customer.CustomerMenu.IncrementQuantity | components/CustomerMenu.tsx:353-358 | shown only at a table for an available dish; the quantity goes up by one |
| Customer.CustomerMenu.SetObservation | components/CustomerMenu.tsx:336-345 | shown only at a table for an available dish; the note becomes the typed one |
| Customer.CustomerMenu.AddToCart | components/CustomerMenu.tsx:57-66 | 'Adicionar' is shown only at a table for an available dish; with no dish open the cart is unchanged; otherwise exactly one line goes at the end, copying the dish with the chosen quantity and the trimmed note; the dish closes |
| Customer.CustomerMenu.RemoveFromCart | components/CustomerMenu.tsx:68-72 | the cart becomes `cart[..i] + cart[i+1..]`, one line shorter |
| Customer.CustomerMenu.Call | components/CustomerMenu.tsx:49-55 | the buttons are shown only at a table; a request reaches the session only after confirmation, and then goes in front of the queue as the session's waiter handler adds it; the calling flag is set only then |
| Customer.CustomerMenu.SetCustomerName | components/CustomerMenu.tsx:435 | the name becomes the typed one |
| Customer.CustomerMenu.OpenCart | components/CustomerMenu.tsx:228-233 | 'Ver Pedido' is shown only at a table, with a non-empty cart and the sheet closed; the sheet opens |
| Customer.CustomerMenu.CloseCart | components/CustomerMenu.tsx:386-392 | the cart sheet closes |
| Customer.CustomerMenu.SubmitOrder | components/CustomerMenu.tsx:447-457 | a blank name places nothing and changes nothing; otherwise the session places one pending order carrying the cart and its total (when there is a table), the sheet closes and the name is cleared |
| Customer.CustomerMenu.Exit | components/CustomerMenu.tsx:101 | the exit button runs the session's exit handler |
| Admin.WithoutItem | components/AdminDashboard.tsx:53 | deleting keeps the other dishes in order, every copy of each, and drops exactly the dishes with that id; distinct ids stay distinct |
| Admin.FilterKeepsIdsDistinct | components/AdminDashboard.tsx:53 | filtering a catalog with distinct ids leaves the ids distinct |
| Admin.ToggleAvailability | components/AdminDashboard.tsx:60-63 | the length is kept, the dishes with that id have their availability flipped, and every other dish is untouched |
| Admin.ToggleTwice | components/AdminDashboard.tsx:59-66 | toggling the same id twice gives back the catalog |
| Admin.ReplaceItem | components/AdminDashboard.tsx:86 | the length is kept, every dish with the edited id becomes the form under that id, and every other dish is untouched |
| Admin.EditsKeepIds | components/AdminDashboard.tsx:60-86 | neither the toggle nor the update changes an id, so distinct ids stay distinct |
| Admin.PlaceholderImage | components/AdminDashboard.tsx:92 | the placeholder is the image service's address followed by the stamp, never empty, and the stamp can be read back from it |
| Admin.NewItem | components/AdminDashboard.tsx:89-93 | the new dish is the form with the fresh id, and with the form's image, or the placeholder when that is absent or empty |
| Admin.CreateKeepsIdsDistinct | components/AdminDashboard.tsx:89-94 | creating with an id no dish has adds exactly one entry and keeps the ids distinct |
| Admin.AvailableItems | components/AdminDashboard.tsx:36 | an order-preserving subsequence of the catalog holding exactly the available dishes, every copy of each |
| Admin.ActiveItems | components/AdminDashboard.tsx:36 | the active count is the number of catalog positions holding an available dish, so at most the catalog size |
| Admin.ActiveItemsAll | components/AdminDashboard.tsx:36 | the active count equals the catalog size exactly when every dish is available |
| Admin.PendingOnly | components/AdminDashboard.tsx:116 | an order-preserving subsequence of the orders holding exactly the pending ones, every copy of each |
| Admin.PendingOrders | components/AdminDashboard.tsx:116 | the pending count is the number of positions of the order list holding a pending order, so at most the number of orders |
| Admin.PlacedOrderIsPending | components/AdminDashboard.tsx:116 | an order placed in front with the pending status raises the pending count by one |
| Admin.InsertByTime | components/AdminDashboard.tsx:259 | inserting into a newest-first list keeps it newest first and adds exactly that order |
| Admin.SortNewestFirst | components/AdminDashboard.tsx:259 | the listed orders are a permutation of the orders, with timestamps non-increasing |
| Admin.NextStatus | components/AdminDashboard.tsx:296-319 | only a delivered order has no button, and a button offers exactly the next status |
| Admin.DashboardStepIsForward | components/AdminDashboard.tsx:296-319 | with distinct order ids, an order's button moves that order exactly one status forward and leaves every other order as it was |
| Admin.DescriptionText | services/geminiService.ts:24-27 | a reply gives its trimmed text, and a failure gives the fixed fallback sentence |
| Admin.BLANK_FORM | components/AdminDashboard.tsx:335 | the blank form: category 'Pratos Principais', available, price 0 |
| Admin.AdminDashboard.constructor | components/AdminDashboard.tsx:25-43 | the modal is closed with no dish being edited, the form is blank, and the settings form starts as the profile |
| Admin.AdminDashboard.OpenNewItem | components/AdminDashboard.tsx:333-336 | 'Novo Prato' opens the modal on a blank form with no dish being edited |
| Admin.AdminDashboard.EditItem | components/AdminDashboard.tsx:45-49 | editing opens the modal on a copy of the dish |
| Admin.AdminDashboard.SetFormData | components/AdminDashboard.tsx:546-615 | the form holds the edited values |
| Admin.AdminDashboard.CloseModal | components/AdminDashboard.tsx:518-522 | the modal closes |
| Admin.AdminDashboard.Delete | components/AdminDashboard.tsx:51-57 | once confirmed, the catalog loses that id and is stored; when declined nothing changes |
| Admin.AdminDashboard.ToggleItem | components/AdminDashboard.tsx:59-66 | the catalog becomes its toggled copy and is stored |
| Admin.AdminDashboard.GenerateDescription | components/AdminDashboard.tsx:68-77 | the generator is consulted exactly when the dish has a name, and only then does the description change, to the reply's text |
| Admin.AdminDashboard.Save | components/AdminDashboard.tsx:79-102 | an edit replaces the edited id's entries, keeping that id; a creation appends one new dish; the catalog is stored and the modal closes on a blank form |
| Admin.AdminDashboard.AdvanceOrder | components/AdminDashboard.tsx:296-319 | the button asks the session for exactly the next status of that order |
| Admin.AdminDashboard.SetSettingsForm | components/AdminDashboard.tsx:437-495 | the settings form holds the edited values |
| Admin.AdminDashboard.SaveSettings | components/AdminDashboard.tsx:104-108 | the settings form becomes the profile and is stored |
| Signup.PLACE_KINDS | components/Registration.tsx:22-24 | the five kinds of place offered on step 2, in the order shown |
| Signup.INITIAL_FORM | components/Registration.tsx:12-20 | the empty form with the kind 'Restaurante' |
| Signup.IsStepValid | components/Registration.tsx:36-41 | only steps 1 to 3 can be valid; step 1 needs a name of at least two characters and passes any of three or more; step 2 always passes; step 3 passes exactly with a non-empty address |
| Signup.Registration.constructor | components/Registration.tsx:11-20 | the wizard starts on step 1 with an empty form whose kind is 'Restaurante' |
| Signup.Registration.SetName | components/Registration.tsx:79 | the name changes only while step 1 is shown |
| Signup.Registration.SetSlogan | components/Registration.tsx:90 | the slogan changes only while step 1 is shown |
| Signup.Registration.ChooseKind | components/Registration.tsx:113 | the kind changes only while step 2 is shown, and only to one of the five listed kinds |
| Signup.Registration.SetAddress | components/Registration.tsx:144 | the address changes only while step 3 is shown |
| Signup.Registration.SetPhone | components/Registration.tsx:155 | the phone changes only while step 3 is shown |
| Signup.Registration.SetWifiName | components/Registration.tsx:169 | the network name changes only while step 3 is shown |
| Signup.Registration.SetWifiPassword | components/Registration.tsx:176 | the password changes only while step 3 is shown |
| Signup.Registration.Next | components/Registration.tsx:26-41 | an invalid step does nothing; a valid step below 3 advances by one; a valid step 3 completes with the form, which then has a name longer than two UTF-16 code units, a non-empty address and a listed kind; the step stays in 1..3 |
| Signup.Registration.Back | components/Registration.tsx:31-34 | above step 1 the wizard goes back one step; on step 1 it cancels |

## Left out

- The language-model call (services/geminiService.ts:3-22) is a foreign, asynchronous
  call. Its outcome is the `Generation` argument, and the prompt is not modelled.
- `Admin.AdminDashboard.GenerateDescription`: does not model `isGenerating` while the
  reply is awaited. The call is atomic here and ends with the flag false, as the
  source's does.
- The 2-second splash timer and the 30-second reset of the "calling" badge are UI
  timing. `Session.App.FinishSplash` is the moment the splash ends, and the badge's
  reset is not modelled.
- How `Date.now()` produces ids and timestamps, and how the ISO date key is built.
  They are arguments. Id uniqueness is assumed only where a freshness or
  distinct-ids precondition says so (`Session.RequestThenResolve`,
  `Admin.CreateKeepsIdsDistinct`, `Admin.DashboardStepIsForward`).
- `JSON.stringify` and `JSON.parse` are left out, and so are stored values that fail
  to parse. The store holds typed values (the `WellTyped` invariant).
- Prices and preparation times are whole numbers. The owner's number inputs
  (components/AdminDashboard.tsx:565-606) also accept fractions, which are floating
  point and not modelled. Negative values are modelled: `Customer.CartTotal` states
  its bounds only for carts without a negative price, and
  `Customer.NegativeLineLowersTotal` shows what such a dish does to the total.
- `Text.Lower`: lowercases the ASCII letters only. JavaScript's `toLowerCase` also
  maps other Unicode letters.
- `Customer.CustomerMenu.RemoveFromCart`: requires an index inside the cart. The
  screen only passes the index of a listed line, and a negative `splice` index
  (counting from the end) is not modelled.
- `Admin.SortNewestFirst`: the permutation and the order are proved. Stability among
  equal timestamps is not, and the order among equal timestamps is left open.
- `Admin.AdminDashboard.Save`: the form is a full `MenuItem`, not a partial record.
  - Fields the owner never filled in are not distinguished from their defaults.
  - The HTML `required` attributes are not modelled.
  - The initial form and the reset after saving leave the price unset, where
    'Novo Prato' sets it to 0. All three are `BLANK_FORM` with price 0 here;
    nothing reads the form before 'Novo Prato' or an edit overwrites it.
- Currency formatting, the QR code, `window.print`, `window.history.pushState`,
  the markup and the active dashboard tab are presentation only.
- `RestaurantInfo` read through `useState(getRestaurantInfo())` (App.tsx:12):
  - React evaluates the argument on every render.
  - Only the first read can seed. Later reads write nothing, because the key is
    then present (`Storage.GetRestaurantInfoSeedsOnce`), and React ignores the
    value they return, even after a save has changed the stored profile.
  - The constructor therefore models a single read.
- `Session.App.ExitTable` does not clear the cart, and neither does the source.
  `Customer.CustomerMenu.SubmitOrder` clears the name even when the session drops the
  order for want of a table, and so does the source.
