# VendorBuddy in Dafny

VendorBuddy is a group-buying site for street-food vendors and their suppliers. Vendors
join group orders that a supplier fills in bulk. This project models two parts of it.

- **Backend** (`backend.dfy`). These are the Express handlers for signup, signin,
  add-product, supplier products, the active-orders listing, group-order creation and
  group-order join. The database tables are maps held in the fields of a `Store` class.
  Each handler is a method that returns its HTTP status code and updates the maps the way
  its create/update calls do. One id counter hands out ids, so a larger id means a later
  `createdAt`. Password hashing is a function the store is given and never inspects.
- **Frontend page logic**, one module per page:
  - `order_tracking.dfy`: the step classifier, the status colours and the action buttons.
  - `supplier_dashboard.dfy`: accepting or rejecting requests, the pending badge,
    add-product validation and the list append, and the stock label.
  - `group_orders.dfy`: the list filter and its statistics, the minimum-members warning,
    the items preview, and the Join button.
  - `vendor_dashboard.dfy`: swapping in the order returned by a join, and the Full button.
  - `create_order.dfy`: coercing the numeric inputs and validating the form.
  - `signup.dfy`: the password check and the renaming of fields into the request body.
  - `bottom_nav.dfy`: the role filter and the highlighted entry.

  A page's component state is a class whose methods change the fields its handlers set.
  The rules each page renders from are functions, with lemmas about them.

Shared modules:

- `js.dfy` gives the JavaScript built-ins the pages rely on: `trim` over the full
  ECMAScript white-space set, ASCII `toLowerCase`, `includes`, `isNaN`, and `Number()` on
  strings (empty, decimal, exponent, `0x`/`0o`/`0b` and `Infinity` forms). `Number()` gives
  an exact real, NaN or an infinity.
- `seqs.dfy` gives order-preserving `filter`, the count of a filter, and sublists.
- `wrappers.dfy` gives `Option`.

## Model

| member | source | states |
|---|---|---|
| Backend.Store.constructor | backend/src/index.ts:8 | every table starts empty, so every order is within capacity |
| Backend.Store.SignUp | backend/src/index.ts:34-97 | a registered email gives 400 and leaves users, emails and suppliers unchanged; otherwise 201 with a fresh user whose hash is `hash(Password)`, returned without the hash; a supplier account also gets exactly one fresh supplier (name = BusinessName, rating 0, unverified, no specialties) that the user links to; a vendor account gets no supplier; the store invariant holds after |
| Backend.Store.SignIn | backend/src/index.ts:108-129 | unknown email gives 404, a password whose hash differs gives 401, otherwise 200 with the user minus its hash and a `userEmail` cookie holding the email; nothing changes |
| Backend.SignUpThenSignIn | backend/src/index.ts:34-129 | signing up with a fresh email and then signing in with the same email and password always answers 200 |
| Backend.Store.AddProduct | backend/src/index.ts:213-248 | a missing name, category, unit, status or user id gives 400 before any lookup; an unknown user or one with no supplier gives 400; otherwise 201 and exactly one new product whose supplierId is the user's linked supplier, not the id sent |
| Backend.Store.SupplierProducts | backend/src/index.ts:253-266 | unknown supplier gives 404 and no products; otherwise 200 with exactly the products whose supplierId is that supplier |
| Backend.ActiveOrders | backend/src/index.ts:287-312 | every row lists a stored order, projected as id, title, the supplier's name, totalItems, currentMembers, maxMembers, deadline and savings |
| Backend.ActiveOrdersNewestFirst | backend/src/index.ts:297-299 | the rows are in strictly decreasing id order, which is newest first |
| Backend.ActiveOrdersComplete | backend/src/index.ts:287-315 | every stored order appears in the listing |
| Backend.Store.ListActive | backend/src/index.ts:287-315 | the listing is complete, newest first, and each row is the projection of its order |
| Backend.NewGroupOrderCapacity | backend/src/index.ts:320-336 | a created order has 0 members and the maximum as sent; it is within capacity exactly when that maximum is not negative |
| Backend.Store.CreateGroupOrder | backend/src/index.ts:320-341 | a missing deadline, savings or supplier, or an unknown supplier, gives 500 and no change; otherwise 201 and exactly one new order with 0 members; capacity is kept only if the maximum is not negative |
| Backend.NegativeMaximumBreaksCapacity | backend/src/index.ts:320-336 | the handler stores an order with `maxMembers` -1, which starts with 0 members over a maximum of -1 |
| Backend.Store.CreateGroupOrderChecked | backend/src/index.ts:320-341 | the corrected handler repeats the create-order page's numeric check: 400 unless maxMembers > 0 and totalItems > 0, then as written; the capacity invariant of every order is kept |
| Backend.AdmissibleOrderStartsOpen | backend/src/index.ts:324-336 | an order with a positive maximum and a positive item count starts within capacity and not full |
| Backend.JoinDecision | backend/src/index.ts:394-419 | no order gives NotFound, a full order gives Full, otherwise the same order with currentMembers one higher |
| Backend.JoinKeepsCapacity | backend/src/index.ts:406-417 | a join admitted into an order within capacity leaves it within capacity; a join is admitted exactly when currentMembers < maxMembers |
| Backend.JoinRepeatedlyAdmits | backend/src/index.ts:398-419 | of n joins served one after another, exactly min(n, free places) are admitted; the order stays within capacity and ends exactly full once n reaches the free places |
| Backend.Store.Join | backend/src/index.ts:394-419 | unknown id gives 404 and no change; a full order gives 400 and no change; otherwise 200, that order's currentMembers rises by exactly 1, nothing else changes, and the updated row is returned; the result agrees with JoinDecision; if every order was within capacity, every order still is |
| Backend.RiceBulkScenario | backend/src/index.ts:394-419 | on a fresh store, a supplier signs up and creates an order for three; three joins answer 200 and a fourth answers 400 |
| OrderTracking.StepIndex | frontend/src/pages/OrderTracking.tsx:46-80 | the index of a status in confirmed, preparing, ready, delivered, or -1 exactly when it is none of them |
| OrderTracking.StepStatus | frontend/src/pages/OrderTracking.tsx:78-85 | a step is completed exactly when its index is at most the current status's, active exactly when it is one more, and pending exactly when it is later still |
| OrderTracking.CompletedIff | frontend/src/pages/OrderTracking.tsx:78-82 | step k shows completed exactly when k is at or before the current status's index |
| OrderTracking.ActiveAndPendingIff | frontend/src/pages/OrderTracking.tsx:82-84 | step k is active exactly when it directly follows the current status, and pending exactly when it is later |
| OrderTracking.AtMostOneActive | frontend/src/pages/OrderTracking.tsx:83 | two active steps are the same step |
| OrderTracking.CompletedPrefix | frontend/src/pages/OrderTracking.tsx:78-84 | a step before a completed step is completed |
| OrderTracking.DeliveredCompletesAll | frontend/src/pages/OrderTracking.tsx:79-82 | for "delivered" all four steps are completed |
| OrderTracking.UnknownStatusStartsAtFirst | frontend/src/pages/OrderTracking.tsx:79-84 | an unrecognised or missing status makes the first step active and the rest pending |
| OrderTracking.UnknownStepShowsCompleted | frontend/src/pages/OrderTracking.tsx:79-82 | a step status outside the table has index -1 and is always shown completed |
| OrderTracking.StatusColor | frontend/src/pages/OrderTracking.tsx:87-95 | the muted default is given exactly to a status outside the four tracking steps |
| OrderTracking.StatusColorsDistinct | frontend/src/pages/OrderTracking.tsx:87-95 | the four statuses get four different classes, none of them the muted default |
| OrderTracking.StatusColorDefault | frontend/src/pages/OrderTracking.tsx:93 | any other status gets the muted default |
| OrderTracking.ButtonsFollowProgress | frontend/src/pages/OrderTracking.tsx:240-255 | Review/Reorder appear for "delivered" only, when the last step is completed; Confirm Pickup appears for "ready" only, when the last step is active; never both |
| SupplierDashboard.SupplierDashboardPage.constructor | frontend/src/pages/SupplierDashboard.tsx:59-73 | no products or requests, no supplier id, the modal closed, and the form empty with status "available" |
| SupplierDashboard.MarkRequests | frontend/src/pages/SupplierDashboard.tsx:157-165 | the list keeps its length and order; requests with the id get "accepted" or "rejected" and every other field is kept; all other requests are unchanged |
| SupplierDashboard.DecisionLowersPendingCount | frontend/src/pages/SupplierDashboard.tsx:157-227 | deciding a request lowers the pending badge by exactly the number of pending requests with that id |
| SupplierDashboard.DecidedRequestsOfferNothing | frontend/src/pages/SupplierDashboard.tsx:157-291 | a decided request no longer offers Accept and Reject |
| SupplierDashboard.DecisionIdempotent | frontend/src/pages/SupplierDashboard.tsx:157-165 | deciding the same request twice equals deciding it once |
| SupplierDashboard.SupplierDashboardPage.HandleOrderRequest | frontend/src/pages/SupplierDashboard.tsx:157-165 | the request list becomes MarkRequests of the old list, and the badge drops by the pending requests with that id |
| SupplierDashboard.PayloadAcceptedIff | frontend/src/pages/SupplierDashboard.tsx:112-130 | a form is sent exactly when name, category and unit are not blank and Number(price) and Number(stock) are not NaN; the sent name, category and unit each begin and end with a character that is not white space |
| SupplierDashboard.EmptyNumbersPass | frontend/src/pages/SupplierDashboard.tsx:115-128 | empty price and stock inputs read as 0 and pass |
| SupplierDashboard.WordPriceRefused | frontend/src/pages/SupplierDashboard.tsx:115-127 | a price string held by the form that is not blank, has no digit and is not an Infinity literal reads as NaN, and the form is refused |
| SupplierDashboard.CheckSubmission | frontend/src/pages/SupplierDashboard.tsx:104-130 | a blank supplier id alerts first; otherwise a form failing validation alerts; otherwise the payload is the trimmed and converted form |
| SupplierDashboard.SupplierDashboardPage.HandleAddProduct | frontend/src/pages/SupplierDashboard.tsx:104-155 | after an alert or a failed request nothing changes; after a successful request the returned product is appended at the end, the modal closes, and the form resets to empty fields with status "available" |
| SupplierDashboard.StockStatusText | frontend/src/pages/SupplierDashboard.tsx:180-191 | the label is always one of "In Stock", "Low Stock", "Out of Stock" and "Unknown" |
| SupplierDashboard.StockStatusTextIff | frontend/src/pages/SupplierDashboard.tsx:180-191 | available, low_stock and out_of_stock map to "In Stock", "Low Stock" and "Out of Stock"; everything else maps to "Unknown" |
| GroupOrders.FilteredOrders | frontend/src/pages/GroupOrders.tsx:65-69 | every shown order is a fetched order that the selected filter keeps, and no more orders are shown than fetched |
| GroupOrders.AllKeepsEverything | frontend/src/pages/GroupOrders.tsx:65-66 | the filter "all" keeps the whole list |
| GroupOrders.OpenFilterIff | frontend/src/pages/GroupOrders.tsx:65-67 | the filter "open" keeps an order exactly when its status is "open" |
| GroupOrders.CategoryFilterIff | frontend/src/pages/GroupOrders.tsx:68 | any other filter keeps an order exactly when the filter occurs in its lower-cased category |
| GroupOrders.CategoryCaseIgnored | frontend/src/pages/GroupOrders.tsx:68 | two categories with the same lower-cased form are kept or dropped alike by every filter; in particular writing the category in lower case changes nothing |
| GroupOrders.UppercaseFilterShowsNothing | frontend/src/pages/GroupOrders.tsx:68 | a category filter holding an upper-case letter shows no order |
| GroupOrders.FilteredIsSublist | frontend/src/pages/GroupOrders.tsx:65-69 | the filtered list is an order-preserving sublist of the fetched list |
| GroupOrders.StatisticsBounded | frontend/src/pages/GroupOrders.tsx:119-138 | the open and completed counts of the shown list add up to at most its length |
| GroupOrders.OpenFilterStatistics | frontend/src/pages/GroupOrders.tsx:65-138 | under "open" every shown order counts as open and none as completed |
| GroupOrders.FilterLowersStatistics | frontend/src/pages/GroupOrders.tsx:119-138 | the statistics over the shown list never exceed those over the fetched list |
| GroupOrders.WarningMatchesBar | frontend/src/pages/GroupOrders.tsx:218-227 | the minimum-members warning shows exactly when currentMembers < minimumOrder, which is exactly when the bar is in the warning colour |
| GroupOrders.ItemsPreviewCovers | frontend/src/pages/GroupOrders.tsx:234-243 | at most the first three items are shown, and "+k more" appears exactly when there are more, with k the remaining count |
| GroupOrders.StatusLabelOthers | frontend/src/pages/GroupOrders.tsx:177-181 | "Open" for open, "Closed" for closed, and "Completed" for every other status |
| GroupOrders.JoinButtonIff | frontend/src/pages/GroupOrders.tsx:252 | Join shows only to a vendor, and then on exactly the open orders |
| GroupOrders.JoinOrderAlert | frontend/src/pages/GroupOrders.tsx:71-73 | joining only produces an alert naming the order; it takes no order data, so no order changes |
| VendorDashboard.VendorDashboardPage.constructor | frontend/src/pages/VendorDashboard.tsx:42 | the order list starts empty |
| VendorDashboard.ReplaceById | frontend/src/pages/VendorDashboard.tsx:72-77 | the length is kept; entries with the returned id become the returned order; all other entries are unchanged |
| VendorDashboard.ReplaceKeepsIds | frontend/src/pages/VendorDashboard.tsx:73-76 | every position keeps its id, so the order of the list is kept |
| VendorDashboard.ReplaceAbsentIsIdentity | frontend/src/pages/VendorDashboard.tsx:73-76 | a returned order whose id is not listed changes nothing |
| VendorDashboard.ReplaceIdempotent | frontend/src/pages/VendorDashboard.tsx:73-76 | swapping in the same order twice equals swapping it in once |
| VendorDashboard.JoinKeepsFigure | frontend/src/pages/VendorDashboard.tsx:73-95 | a join never changes the "Active Orders" figure, the length of the list |
| VendorDashboard.CaptionMatchesDisabled | frontend/src/pages/VendorDashboard.tsx:167-169 | the button reads "Full" exactly when it is disabled, which is when currentMembers >= maxMembers |
| VendorDashboard.DisabledMirrorsServer | frontend/src/pages/VendorDashboard.tsx:167-169 | the button is disabled exactly when the server answers "already full"; an enabled button asks for a join the server admits with one more member |
| VendorDashboard.VendorDashboardPage.JoinGroupOrder | frontend/src/pages/VendorDashboard.tsx:64-82 | a returned order is swapped in by its id and nothing is alerted; a failure leaves the list unchanged and alerts |
| CreateOrder.CreateOrderPage.constructor | frontend/src/pages/CreateOrder.tsx:22-29 | the form starts with empty strings, totalItems 0 and maxMembers 10 |
| CreateOrder.ChangeStoresCoerced | frontend/src/pages/CreateOrder.tsx:43-47 | totalItems and maxMembers store Number(value); every other field stores the raw string |
| CreateOrder.ChangeOnlyNamedField | frontend/src/pages/CreateOrder.tsx:44-47 | every field other than the named one is unchanged |
| CreateOrder.CreateOrderPage.HandleChange | frontend/src/pages/CreateOrder.tsx:40-48 | the form becomes WithChange of the old form |
| CreateOrder.InitialFormRefused | frontend/src/pages/CreateOrder.tsx:22-56 | the initial form is refused |
| CreateOrder.AcceptedMaximum | frontend/src/pages/CreateOrder.tsx:56 | an accepted maxMembers is positive, +Infinity or NaN; a whole-number one is at least 1 |
| CreateOrder.WordMaximumPasses | frontend/src/pages/CreateOrder.tsx:46-56 | handleChange, given for maxMembers any string that is not blank, has no digit and is not an Infinity literal, stores NaN, and a form that passed still passes |
| CreateOrder.AcceptedOrderStartsOpen | frontend/src/pages/CreateOrder.tsx:56-69 | an accepted whole-number form becomes an order that starts within capacity and not full |
| CreateOrder.CreateOrderPage.HandleSubmit | frontend/src/pages/CreateOrder.tsx:51-76 | the form alerts exactly when a string field is empty or a number is <= 0; otherwise it is sent as it stands; nothing changes |
| Signup.WithFieldOnlyNamed | frontend/src/pages/Signup.tsx:75-77 | updateFormData sets the named field and keeps every other field |
| Signup.SignupPage.UpdateFormData | frontend/src/pages/Signup.tsx:75-77 | the form becomes WithField of the old form |
| Signup.SignupPage.constructor | frontend/src/pages/Signup.tsx:25-35 | the form starts empty and the tab starts at "vendor" |
| Signup.SignupPage.SelectTab | frontend/src/pages/Signup.tsx:95-96 | the selected tab becomes the user type sent with the next signup |
| Signup.SignupPayload | frontend/src/pages/Signup.tsx:41-54 | nothing is sent exactly when the password and its confirmation differ |
| Signup.PayloadRenamesFields | frontend/src/pages/Signup.tsx:46-54 | name, businessName, phone, address and password go to FullName, BusinessName, phonenuber, localtion and Password; email is kept; userType is the selected tab |
| Signup.FailureTextPrefers | frontend/src/pages/Signup.tsx:69-71 | the failure alert shows the server's message, else the error's, after "Signup failed: " |
| Signup.SignupPage.HandleSignup | frontend/src/pages/Signup.tsx:38-73 | a password mismatch alerts and sends nothing; otherwise the renamed payload is sent and the success or failure alert follows the reply |
| Signup.RegisterThenLogIn | frontend/src/pages/Signup.tsx:46-66 | a payload built from a matching form, sent with a fresh email, is followed by a 200 signin with the form's email and password |
| BottomNav.FilteredItemsIff | frontend/src/components/navigation/BottomNav.tsx:28-32 | an entry is shown exactly when it is not vendor-only for a non-vendor and not supplier-only for a non-supplier |
| BottomNav.UnflaggedAlwaysShown | frontend/src/components/navigation/BottomNav.tsx:31 | an entry with neither flag is always shown |
| BottomNav.FilteredItemsInOrder | frontend/src/components/navigation/BottomNav.tsx:28-32 | the shown entries are an order-preserving sublist of the table |
| BottomNav.CurrentTableShowsAll | frontend/src/components/navigation/BottomNav.tsx:13-32 | with the current table every user type gets Home and then Orders |
| BottomNav.AtMostOneActive | frontend/src/components/navigation/BottomNav.tsx:37-39 | an entry is active when the path equals its own; with distinct paths at most one shown entry is active |
| BottomNav.DistinctPathsSurvive | frontend/src/components/navigation/BottomNav.tsx:28-32 | a sublist of a table with distinct paths has distinct paths |
| Seqs.Filter | frontend/src/pages/GroupOrders.tsx:65-69 | every element of the result is an element of the input that satisfies the predicate, every input element that satisfies it occurs in the result, and the result is no longer than the input |
| Seqs.FilterMultiplicity | frontend/src/pages/GroupOrders.tsx:65-69 | each value that satisfies the predicate occurs in the result exactly as often as in the input, and no other value occurs; with FilterIsSubsequence this fixes the result |
| Seqs.FilterIsSubsequence | frontend/src/components/navigation/BottomNav.tsx:28 | a filter result is an order-preserving sublist |
| Seqs.CountSubsequence | frontend/src/pages/GroupOrders.tsx:119-138 | a filter counts no more over a sublist than over the list |
| Seqs.CountDisjoint | frontend/src/pages/GroupOrders.tsx:119-138 | two predicates that never hold together count at most the length between them |
| Js.Trim | frontend/src/pages/SupplierDashboard.tsx:105-116 | the result has no leading or trailing white space, occurs in the input just after its leading white space with only white space after it, and is empty exactly when the input is all white space |
| Js.TrimIdempotent | frontend/src/pages/SupplierDashboard.tsx:113-116 | trimming twice equals trimming once |
| Js.ToLower | frontend/src/pages/GroupOrders.tsx:68 | every upper-case ASCII letter is lowered and nothing else changes |
| Js.IncludesIff | frontend/src/pages/GroupOrders.tsx:68 | includes holds exactly when the substring occurs at some position |
| Js.ToNumber | frontend/src/pages/SupplierDashboard.tsx:115-117 | white space alone reads as 0 |
| Js.NumberOfNatToString | frontend/src/pages/CreateOrder.tsx:46 | a decimal numeral reads back as its value |
| Js.NumberWithoutDigits | frontend/src/pages/SupplierDashboard.tsx:126-127 | non-blank text with no digit, other than an Infinity literal, reads as NaN |

## Left out

- `backend/dist/index.js` is the compiled form of `backend/src/index.ts`. It differs only in CORS and cookie settings.
- Prisma, Express routing, CORS, cookie parsing and `app.listen` are not modelled. The tables are map fields. The signin cookie is returned as a value, and its flags are not modelled.
- bcrypt hashing with a salt is modelled as a fixed hash function the store is given.
  - `compare` is modelled as equality of hashes.
- The 500 answers for database failures are not modelled, except where a missing field or an unknown supplier makes the create call fail.
- Requests are handled one at a time.
  - The read-then-increment race of two simultaneous joins is not modelled.
  - So no claim is made about lost updates.
- Backend.Store.CreateGroupOrder: the body's numeric fields are taken as integers. Text that `Number()` would convert, and the NaN it would reject, are not modelled.
- Backend.Store.AddProduct: price and stock are taken as given. The handler does not check them either.
- Backend.Store.CreateGroupOrder: the title is always a string. The database schema is not part of this model, so a body without a title, which Prisma would refuse with a 500 if the column is required, is not modelled.
- These handlers are not modelled: `/me`, both dashboard-data endpoints, `GET /group-orders` (a request list), `/order-tracking/:id` and `/suppliers`. They are read-only queries with no logic beyond the lookup.
- `Number()` gives exact reals, with no IEEE rounding or overflow to Infinity. Percentages and the progress bar widths are not modelled.
- `toLowerCase` lowers ASCII letters only.
- Strings are sequences of Unicode scalar values, while JavaScript strings are UTF-16 code units. A character outside the Basic Multilingual Plane is one character here and two code units there, so lengths and indices differ for such text.
- The price, stock, total-items and max-members inputs have `type="number"`. A browser hands such an input's change handler an empty string for text that is not a number, which reads as 0. So the NaN and Infinity values in CreateOrder.WordMaximumPasses, SupplierDashboard.WordPriceRefused and CreateOrder.AcceptedMaximum cannot be reached by typing into the page. These members describe the handlers on any string they are given.
- The CSS class strings are not modelled, except the order-tracking status colours and the group-order progress bar colour. The following are also left out:
  - JSX rendering;
  - loading states;
  - the fetches that fill the page lists;
  - navigation;
  - `localStorage`;
  - the add-product failure alert text.
- The Login, Index, Dashboard and SupplierProducts pages are left out. So are `App.tsx`, `Header.tsx` and `Layout.tsx`. They are requests, routing and presentation.
- Deadlines and savings are not modelled as values. They are display strings.

## Findings

| source | as written | input that shows it | evidently intended | confidence | as-written member | corrected member |
|---|---|---|---|---|---|---|
| backend/src/index.ts:320-336 | `POST /group-orders` stores `maxMembers` without any check | a body with `maxMembers: -1` creates an order with 0 members over a maximum of -1, which breaks `0 <= currentMembers <= maxMembers` | reject a non-positive maximum or item count with 400, as the create-order page does before sending | not executed | Backend.NegativeMaximumBreaksCapacity | Backend.Store.CreateGroupOrderChecked |
