# Admin dashboard client state, in Dafny

This project models the client-side state logic of an e-commerce admin
dashboard (a React and Redux Toolkit application) and proves properties of it.

- **Order slice** (`OrderReducers`, `OrderStore`). The slice holds:
  - the listed orders;
  - the current order;
  - the overlay of pending optimistic status changes;
  - the ids whose status request is in flight.

  `OrderReducers` states every reducer case as a function on the slice's
  value. `OrderStore.Store` is the slice as the store holds it: a class whose
  fields the reducer cases update in place. Each of its methods is proved to
  produce exactly the state the matching function describes.
- **Order page hook** (`UseOrder`). Opening an order and changing its status are
  modelled as the list of actions dispatched, in order. The way the status
  request settles is an input. The hook's test for a version conflict is a
  predicate.
- **Product slice** (`ProductStore`). The list operations of create, update and
  delete; the payloads the update and delete requests produce; and the
  loading and error flags every request case sets. This is again a class over
  pure list functions.
- **Dashboard slice** (`Dashboard`). The projection of the server's payload into
  statistics cards and the two sales lists.
- **User and product forms** (`Forms`). Field edits, validation, submission,
  and the reset on new initial data. The e-mail test `\S+@\S+\.\S+` is given
  both as the regular expression's meaning and as a position check. Both are
  proved to agree.
- **List searches** (`Search`). The order, user and product search boxes.

The modules `Js` (null/undefined as `Option`, string truthiness, `||`),
`Lists` (`findIndex`, `filter`) and `Text` (the ECMAScript white-space set,
`trim`, ASCII `toLowerCase`, `includes`, `toString` of an id) give the
JavaScript built-ins the code uses a stated meaning.

The model takes ids to be non-negative integer numbers, compared with `===`, and models them as `nat`.
Amounts and percentages are passed through without arithmetic and are
modelled as `real`. The only arithmetic is the change the dashboard computes
for the product and order counts (`current - previous`), which are modelled as
`int`.

## Model

| member | source | states |
|---|---|---|
| Lists.FindIndex | src/store/slices/orderSlice.js:101 | the index is -1 exactly when no element matches; otherwise it holds a match and no earlier element matches |
| Lists.Filter | src/store/slices/orderSlice.js:186-188 | every kept element satisfies the predicate and comes from the list; every element that satisfies it is kept |
| Lists.FilterIsSubseq | src/store/slices/orderSlice.js:186-188 | the filtered list is a subsequence of the original: relative order is kept |
| Lists.FilterCounts | src/store/slices/productSlice.js:157-159 | each satisfying element is kept as often as it occurs; every other element is dropped |
| Lists.FilterConcat | src/store/slices/orderSlice.js:180-188 | filtering a concatenation is concatenating the filtered parts |
| Lists.FilterIdempotent | src/store/slices/productSlice.js:157-159 | filtering twice with the same predicate is filtering once |
| Text.Trim | src/pages/User/components/UserForm.jsx:59 | the result is a slice of the input with only white space before and after it; it is empty exactly when the input is all white space; otherwise it starts and ends with a non-space |
| Text.Lower | src/pages/User/UserList.jsx:15 | same length; every character is lower-cased and no upper-case ASCII letter remains |
| Text.DecimalString | src/pages/Order/OrderList.jsx:33 | a non-empty string of decimal digits whose value is the id, with no leading zero unless the id is 0 |
| OrderReducers.SetFirstStatus | src/store/slices/orderSlice.js:101-104 | only the first order with the id gets the new status; the length, every id and every other order are kept |
| OrderReducers.WithOverlays | src/store/slices/orderSlice.js:139-147 | each fetched order, in order, carries its overlay's status when one is pending and is otherwise unchanged |
| OrderReducers.Merge | src/store/slices/orderSlice.js:196-201 | each field the payload carries replaces the order's; each field it leaves out keeps the order's value; an empty payload changes nothing |
| OrderReducers.MergeWhereId | src/store/slices/orderSlice.js:195-197 | every order with the id is spread with the payload; orders with other ids are untouched |
| OrderReducers.UpdateOrderStatusOptimistically | src/store/slices/orderSlice.js:96-110 | records the overlay entry and keeps the other entries; the list becomes SetFirstStatus of the id, so only the first listed order with the id changes, and only its status; a current order with the id gets the new status, any other current order (or none) is kept; the rest of the slice is unchanged |
| OrderReducers.RevertOrderStatusUpdate | src/store/slices/orderSlice.js:112-128 | removes the id from the overlay and keeps the other entries; puts the status back on the first listed order with the id and on a current order with the id, changing nothing else in them; the rest of the slice is unchanged |
| OrderReducers.FetchOrdersFulfilled | src/store/slices/orderSlice.js:136-149 | loading ends; the list has the payload's length and ids; an overlay's status wins over the fetched one; the rest of the slice is unchanged |
| OrderReducers.FetchOrderByIdFulfilled | src/store/slices/orderSlice.js:162-172 | the payload becomes the current order, with the overlay's status when one exists |
| OrderReducers.StatusUpdatePayload | src/store/slices/orderSlice.js:60 | the fulfilled payload's id is the requested id; its other fields are the server's |
| OrderReducers.StatusUpdateRejection | src/store/slices/orderSlice.js:61-74 | a 409 gives status 409 and the fixed conflict message; any other failure gives the response body or else the error message; both carry the previous status |
| OrderReducers.UpdateOrderStatusPending | src/store/slices/orderSlice.js:178-181 | appends the id to the updating ids; the rest of the slice is unchanged |
| OrderReducers.UpdateOrderStatusFulfilled | src/store/slices/orderSlice.js:182-204 | every occurrence of the id leaves the updating ids, and the other ids keep their order and counts; the overlay loses the id; the payload is merged into every order with the id, the other orders are kept, and a current order with the id becomes its merge with the payload while any other current order is kept; without a payload the orders and the current order are kept |
| OrderReducers.UpdateOrderStatusRejected | src/store/slices/orderSlice.js:205-232 | the id leaves the updating ids; only a truthy previous status reverts the order and drops the overlay, otherwise both stay; the error is the payload's or "Failed to update order status" |
| OrderReducers.OptimisticThenRevertRestores | src/store/slices/orderSlice.js:96-128 | an optimistic update followed by a revert to the status shown before gives back exactly the earlier slice, when no overlay was pending for the id |
| OrderReducers.SecondOptimisticUpdateSupersedes | src/store/slices/orderSlice.js:98 | a second optimistic update of the same id overwrites the first entirely |
| OrderReducers.OptimisticUpdatesCommute | src/store/slices/orderSlice.js:96-110 | optimistic updates of two different ids give the same slice in either order |
| OrderReducers.OtherOrdersAreUntouched | src/store/slices/orderSlice.js:96-232 | none of the five status reducers for one id changes another id's overlay entry, listed orders, current order or updating count |
| OrderReducers.MergeIsIdempotent | src/store/slices/orderSlice.js:196 | spreading the same payload twice is spreading it once |
| OrderReducers.MergeWhereIdIsIdempotent | src/store/slices/orderSlice.js:195-197 | merging the same payload into the orders with the id twice is merging it once |
| OrderReducers.CommitIsIdempotent | src/store/slices/orderSlice.js:182-204 | settling the same successful update twice leaves the slice as settling it once |
| OrderReducers.PendingThenSettleClearsUpdating | src/store/slices/orderSlice.js:178-211 | starting a request and settling it either way leaves the updating ids free of that id, with the others as before |
| OrderReducers.StaleRejectionClobbersNewerUpdate | src/store/slices/orderSlice.js:205-229 | with two changes of one order in flight, for an order whose status is non-empty, the first one's rejection restores the status from before both and clears the overlay and the updating mark |
| OrderReducers.EmptyStatusIsNotReverted | src/store/slices/orderSlice.js:205-229 | a rejected change of an order whose status was empty does not revert: the order keeps the tentative status and the overlay entry stays, while the updating mark is cleared |
| OrderReducers.ConflictRejectionStoresFixedMessage | src/store/slices/orderSlice.js:231 | a 409 rejection stores "Failed to update order status" as the error, not the conflict message |
| OrderReducers.FetchConditionAfterDetails | src/store/slices/orderSlice.js:42-46 | a fetched order with products stops a second fetch of its id; an order taken from the list stops the fetch exactly when it already carries products |
| OrderStore.Store.constructor | src/store/slices/orderSlice.js:5-14 | the initial slice: no orders, no current order, no error, nothing updating, empty overlay |
| OrderStore.Store.ClearOrder | src/store/slices/orderSlice.js:82-84 | the current order becomes null; nothing else changes |
| OrderStore.Store.ClearError | src/store/slices/orderSlice.js:85-87 | the error becomes null; nothing else changes |
| OrderStore.Store.SetIsDetailsOpen | src/store/slices/orderSlice.js:88-90 | sets the details flag; nothing else changes |
| OrderStore.Store.SetOrderOptimistically | src/store/slices/orderSlice.js:92-94 | the given order becomes the current one; nothing else changes |
| OrderStore.Store.UpdateOrderStatusOptimistically | src/store/slices/orderSlice.js:96-110 | the in-place update produces exactly OrderReducers.UpdateOrderStatusOptimistically |
| OrderStore.Store.RevertOrderStatusUpdate | src/store/slices/orderSlice.js:112-128 | the in-place revert produces exactly OrderReducers.RevertOrderStatusUpdate |
| OrderStore.Store.FetchOrdersPending | src/store/slices/orderSlice.js:132-135 | loading starts and the error is cleared; nothing else changes |
| OrderStore.Store.FetchOrdersFulfilled | src/store/slices/orderSlice.js:136-149 | produces exactly OrderReducers.FetchOrdersFulfilled |
| OrderStore.Store.FetchOrdersRejected | src/store/slices/orderSlice.js:150-153 | loading ends and the payload becomes the error; nothing else changes |
| OrderStore.Store.ShouldFetchOrderById | src/store/slices/orderSlice.js:42-46 | the fetch goes ahead unless the current order has this id and carries products |
| OrderStore.Store.FetchOrderByIdPending | src/store/slices/orderSlice.js:155-161 | loading starts only when there is no current order; the error is cleared |
| OrderStore.Store.FetchOrderByIdFulfilled | src/store/slices/orderSlice.js:162-172 | produces exactly OrderReducers.FetchOrderByIdFulfilled |
| OrderStore.Store.FetchOrderByIdRejected | src/store/slices/orderSlice.js:173-176 | loading ends and the payload becomes the error; nothing else changes |
| OrderStore.Store.UpdateOrderStatusPending | src/store/slices/orderSlice.js:178-181 | produces exactly OrderReducers.UpdateOrderStatusPending |
| OrderStore.Store.UpdateOrderStatusFulfilled | src/store/slices/orderSlice.js:182-204 | produces exactly OrderReducers.UpdateOrderStatusFulfilled |
| OrderStore.Store.UpdateOrderStatusRejected | src/store/slices/orderSlice.js:205-232 | produces exactly OrderReducers.UpdateOrderStatusRejected |
| UseOrder.CapturedVersion | src/lib/hooks/useOrder.js:55 | a missing or zero version is sent as 1; any other version is sent as is |
| UseOrder.HandleStatusChange | src/lib/hooks/useOrder.js:49-117 | nothing is dispatched when the order is not listed; otherwise the optimistic action comes first and the request second, with the same id, status, previous status and version; the list is refetched exactly once on success or on a conflict and not otherwise, as the last of at most three actions; the notice matches the outcome |
| UseOrder.HandleViewOrderDetails | src/lib/hooks/useOrder.js:29-41 | the fetch of the full order is always dispatched last (its condition may then skip the request); a listed order is first shown and the details opened |
| UseOrder.ConflictExactlyOn409 | src/lib/hooks/useOrder.js:98 | for the payloads the status request is rejected with, the conflict test holds exactly when the server answered 409 |
| UseOrder.IsConflict | src/lib/hooks/useOrder.js:98 | a 409 is a conflict; with any other status a failure is a conflict exactly when it has a message in which "version" occurs |
| UseOrder.ConflictMessageIsNotMatched | src/store/slices/orderSlice.js:62-67 | the conflict message, which says "Version" with a capital letter, is not recognised by the message test alone |
| UseOrder.StatusChangeCommits | src/lib/hooks/useOrder.js:57-94 | a successful change shows the new status at once; afterwards the listed order is exactly the shown order spread with the server's fields under its own id (so the server's status and version stand, and its customer and products where it sends them), no overlay or updating mark remains, and the list is refetched |
| UseOrder.StatusChangeRejectedReverts | src/lib/hooks/useOrder.js:95-116 | for an order whose status is non-empty, a rejected change leaves the listed order exactly as before with no overlay or updating mark; the list is refetched exactly on a 409 |
| ProductStore.ReplaceFirstById | src/store/slices/productSlice.js:135-143 | only the first product with the payload's id is replaced; with no match the list is unchanged |
| ProductStore.RemoveById | src/store/slices/productSlice.js:153-161 | every product with the id is removed; the others keep their order and counts |
| ProductStore.UpdatePayload | src/store/slices/productSlice.js:53 | the payload's id is the requested id, whatever the server returned |
| ProductStore.DeleteRequestOutcome | src/store/slices/productSlice.js:60-77 | success gives `{ id }`; a 404 gives `{ id, alreadyRemoved: true }` and a refetch; any other failure rejects with the body or else the message |
| ProductStore.CreateThenDelete | src/store/slices/productSlice.js:122-161 | deleting a just-created product's id is deleting it before the create; with no earlier product of that id the list is back as before |
| ProductStore.DeleteIsIdempotent | src/store/slices/productSlice.js:153-161 | deleting the same id twice is deleting it once |
| ProductStore.UpdateIsIdempotent | src/store/slices/productSlice.js:135-143 | the same update twice is the update once; afterwards the first product with the id is the payload |
| ProductStore.Store.constructor | src/store/slices/productSlice.js:5-10 | the initial slice: no products, no current product, not loading, no error |
| ProductStore.Store.ClearProduct | src/store/slices/productSlice.js:83-85 | the current product becomes null; nothing else changes |
| ProductStore.Store.ClearError | src/store/slices/productSlice.js:86-88 | the error becomes null; nothing else changes |
| ProductStore.Store.Pending | src/store/slices/productSlice.js:92-152 | every pending case starts loading and clears the error; nothing else changes |
| ProductStore.Store.Rejected | src/store/slices/productSlice.js:100-165 | every rejected case ends loading and stores the payload as the error; nothing else changes |
| ProductStore.Store.FetchProductsFulfilled | src/store/slices/productSlice.js:96-99 | the payload becomes the list and loading ends |
| ProductStore.Store.FetchProductByIdFulfilled | src/store/slices/productSlice.js:109-112 | the payload becomes the current product and loading ends |
| ProductStore.Store.CreateProductFulfilled | src/store/slices/productSlice.js:122-125 | the payload is appended: the length grows by one and the earlier products are kept as a prefix |
| ProductStore.Store.UpdateProductFulfilled | src/store/slices/productSlice.js:135-143 | the list becomes ProductStore.ReplaceFirstById of the payload and loading ends |
| ProductStore.Store.DeleteProductFulfilled | src/store/slices/productSlice.js:153-161 | with `alreadyRemoved` only loading ends; otherwise the list becomes ProductStore.RemoveById of the id |
| Dashboard.MonthlySales | src/store/slices/dashboardSlice.js:82-85 | same length and order; each month is kept and its revenue becomes its sales |
| Dashboard.RecentSales | src/store/slices/dashboardSlice.js:88-94 | same length and order; name, e-mail, amount and date are copied; a truthy id is kept and only a falsy one is generated |
| Dashboard.FetchDashboardPending | src/store/slices/dashboardSlice.js:50-53 | loading starts and the error is cleared; nothing else changes |
| Dashboard.FetchDashboardFulfilled | src/store/slices/dashboardSlice.js:54-95 | each count card's change is current minus previous; values and percentages are copied; both lists have the payload's length and order, each recent sale keeps its fields, its truthy id or else gets a generated one; loading ends and the error is left as it was |
| Dashboard.FetchDashboardRejected | src/store/slices/dashboardSlice.js:96-99 | loading ends and the payload becomes the error; nothing else changes |
| Dashboard.RequestCycleSettles | src/store/slices/dashboardSlice.js:50-99 | after pending then fulfilled there is no error; after pending then rejected the error is the payload and the statistics are untouched, so a failed first request leaves the zeroed cards and empty lists |
| Dashboard.MonthlySalesKeepTotal | src/store/slices/dashboardSlice.js:82-85 | the chart's sales add up to the revenue the payload reports |
| Forms.InputChange | src/pages/User/components/UserForm.jsx:40-54 | only the named field changes and takes the input's text; that field's error is reset to "" only when it was set; every other error is kept |
| Forms.LooksLikeEmail | src/pages/User/components/UserForm.jsx:65 | the e-mail test accepts exactly the strings in which some substring matches `\S+@\S+\.\S+` |
| Forms.EmailCheckIsPattern | src/pages/User/components/UserForm.jsx:65 | the position check accepts a string exactly when some substring of it matches `\S+@\S+\.\S+` |
| Forms.ValidateUser | src/pages/User/components/UserForm.jsx:56-71 | a name error exactly when the name is blank; "Email is required" when the e-mail is blank, otherwise "Email is invalid" exactly when the pattern does not match; no errors exactly when both pass |
| Forms.SubmitUser | src/pages/User/components/UserForm.jsx:73-79 | the errors become the validation's; the data is submitted exactly when there are none |
| Forms.UserFormReset | src/pages/User/components/UserForm.jsx:33-38 | new initial data replaces the data; without it the data is kept; the errors are always cleared |
| Forms.EditingNameFixesNameOnly | src/pages/User/components/UserForm.jsx:40-71 | typing a non-blank name removes the name error from the next validation and leaves its e-mail verdict unchanged |
| Forms.ValidateProduct | src/pages/Product/ProductForm.jsx:62-71 | a name error exactly when the name is blank, with the product message; no other field is checked |
| Forms.SubmitProduct | src/pages/Product/ProductForm.jsx:73-79 | the data is submitted exactly when the name is not blank |
| Forms.ProductFormReset | src/pages/Product/ProductForm.jsx:31-44 | new initial data replaces the data; without it the data is empty texts with price and stock 0; the errors are always cleared |
| Forms.EmptyProductIsRejected | src/pages/Product/ProductForm.jsx:31-71 | a form reset without initial data cannot be submitted: its name is required |
| Search.FilterOrders | src/pages/Order/OrderList.jsx:30-38 | an absent list shows nothing; otherwise exactly the matching orders are shown, in order, each as often as listed |
| Search.FilterUsers | src/pages/User/UserList.jsx:13-18 | exactly the matching users are shown, in order; a user without a role matches only on name or e-mail |
| Search.FilterProducts | src/pages/Product/ProductList.jsx:12-17 | exactly the matching products are shown, in order; a product without a category matches only on name |
| Search.EmptySearchShowsAll | src/pages/Order/OrderList.jsx:30-38 | an empty search term shows every order, user and product |
| Search.SearchIgnoresCase | src/pages/User/UserList.jsx:13-18 | searching a term and its lower-cased form shows the same records |
| Search.LongerTermNarrows | src/pages/Product/ProductList.jsx:12-17 | every record shown for a term is also shown for any part of that term |

## Left out

- Rendering is not modelled: the JSX, the Chakra components, charts, dialogs, layout and routing. It carries no state logic.
- Network requests are inputs. The model takes the response body or the failure's status, body and message as given. `src/api/axios.js` and `src/api/endpoints.js` are not part of this model.
- Toasts and `console.error` appear only as the `Notice` the status change ends with.
- The row highlight with `setTimeout` in `OrderList.jsx` and the `window.confirm` prompts are browser effects and are left out.
- `useProduct.js`, `useUser.js`, `useDashboard.js` and `store.js` are not part of this model. Nor is the user slice, which the hooks import but which is absent.
- `handleCloseOrderDetails` sends `setIsDetailsOpen(false)` then `clearOrder()`; both are modelled as `OrderStore.Store` methods, and the hook function itself is not modelled. The hook's `setCurrentOrderId` is local UI state and is left out.
- Number formatting and parsing (`toFixed`, `toLocaleString`, `parseFloat`) are left out. Amounts and percentages are plain values.
- `Dashboard.RecentSales`: a sale without a truthy id gets the marker `Generated` instead of a random string, because `Math.random` is nondeterministic.
- Concurrency is not modelled as such. Requests that overlap are modelled as sequences of reducer calls, as in `OrderReducers.StaleRejectionClobbersNewerUpdate`.
- `Text.Lower` folds only ASCII letters. JavaScript's Unicode case mapping is left out.
- Error payloads are modelled as strings. A response body that is an object is not distinguished from one that is a string.
- `Forms.ValidateUser` and `Forms.ValidateProduct` require the validated fields to hold text. The code would throw on a missing user form field, and that crash is not modelled.
- In a product form, a field the user has not edited may hold a number (price and stock start at 0). An edited field always holds text.
- Ids are unbounded `nat`s. JavaScript numbers are exact only up to 2^53, and `toString()` switches to exponent notation from 1e21; `Text.DecimalString` gives plain digits for every id.
- Sale ids in the dashboard payload are modelled as optional strings, whose falsy value is the empty string. A numeric id `0`, which `sale.id || …` would also replace with a generated id, is outside the model.
- Response fields spread over an order are taken to be absent or non-null. A field present with the value `null` (such as `products: null`) would overwrite the order's value in the code; `OrderReducers.Merge` keeps the order's value for it instead.
- The slice's `statusSequence` constant is not modelled: no reducer reads or changes it.

Facts about the code that the model records:

- The orders are a list, not a collection whose order does not matter.
  - Duplicate ids are possible.
  - `findIndex` touches only the first order with an id.
  - `map` and `filter` touch every order with it.
- The hook has no "not found" class. A 404 on a status change is a generic failure.
- The catch handler's test for "version" in the message never fires for the payloads the status request actually rejects with:
  - the generic payload has no `message`;
  - the 409 message starts with a capital "V".

  `UseOrder.ConflictExactlyOn409` and `UseOrder.ConflictMessageIsNotMatched` state this.
- A rejection reverts only when its previous status is truthy. An order whose status was the empty string is not reverted: it keeps the tentative status and its overlay entry. `OrderReducers.UpdateOrderStatusRejected` states this, and `OrderReducers.EmptyStatusIsNotReverted` shows it for a started change.
