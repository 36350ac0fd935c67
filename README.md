# Storefront state logic in Dafny

This project models the deterministic state logic of a React storefront for an
accessibility-focused marketplace: the order-item status taxonomy and its label
and colour tables, the cart group with its optimistic quantity edits and
pessimistic deletes, the order-items slice and the checkout and payment-return
pages, the buyer's order history pipeline and its pagination, the seller's
order and claims screens, the admin screens for orders, sellers, users and
products, the product search (filter panel, filter store, query parameters,
URL normalisation, client-side filter and sort), the sign-up and product
registration validators, the accessibility and auth slices, the route guards,
and image address resolution.

Every remote call is an outcome the caller supplies (an HTTP status with its
data, or a thrown error), so each handler is proved for every answer the
server could give. Screens whose source updates component state step by step
are classes whose methods state the whole new state in terms of the old one;
lists and tables built by expressions are functions with their properties
proved as lemmas. One module per source file; `Util` holds the shared
JavaScript building blocks (`filter`, `find`, a stable sort by key,
`includes`, `toLowerCase`, white space, the truncating remainder).

## Model

| member | source | states |
|---|---|---|
| OrderItemStatus.Parse | src/constants/order-item-status.js:1-14 | a raw string that parses is exactly the name of the status it parses to |
| OrderItemStatus.EnumHasTwelveKeys | src/constants/order-item-status.js:1-14 | `ORDER_ITEM_STATUS` has twelve pairwise-distinct keys and every status is one of them |
| OrderItemStatus.NameRoundTrip | src/constants/order-item-status.js:1-14 | every key maps to its own name, and parsing that name gives the key back |
| OrderItemStatus.ParseKnownIff | src/constants/order-item-status.js:1-14 | a string is a known status iff it is the name of one of the twelve keys |
| OrderItemStatus.StatusLabel | src/constants/order-item-status.js:16-84 | an unknown status gets the neutral '알 수 없음' badge; a known one never gets the neutral label or class |
| OrderItemStatus.LabelsDistinct | src/constants/order-item-status.js:17-77 | two different statuses never share a badge label |
| OrderItemStatus.SharedColours | src/constants/order-item-status.js:28-77 | REJECTED/CANCELED, CANCEL_REJECTED/RETURN_REJECTED and SHIPPED/RETURN_PENDING share a colour class; CONFIRMED reads '배송 완료' |
| OrderItemStatus.ShippingIsUnknown | src/routes/_need-auth/_seller/seller/orders.tsx:445 | the 'SHIPPING' option the seller picker offers is not a status and shows the unknown badge |
| OrderStatusMapping.ParseOrderStatus | src/lib/order-status-mapping.js:1-20 | a parsed order status's name is the raw string |
| OrderStatusMapping.OrderStatusRoundTrip | src/lib/order-status-mapping.js:1-20 | parsing the name of each of the seven order statuses gives that status back |
| OrderStatusMapping.OrderStatusLabel | src/lib/order-status-mapping.js:1-20 | `getOrderStatusLabel` of anything but the seven order statuses is '알 수 없음' |
| OrderStatusMapping.OrderStatusLabelKnownIff | src/lib/order-status-mapping.js:1-20 | the label is a known one iff the string names one of the seven order statuses |
| OrderStatusMapping.OrderItemStatusLabel | src/lib/order-status-mapping.js:22-51 | `getOrderItemStatusLabel` is '알 수 없음' iff the string is not one of the twelve item statuses |
| OrderStatusMapping.ItemLabelsDistinct | src/lib/order-status-mapping.js:22-51 | different item statuses get different labels |
| OrderStatusMapping.PendingMatchesOrdered | src/lib/order-status-mapping.js:3-4 | order-level PENDING and item-level ORDERED both read '결제 대기' |
| OrderStatusMapping.OrderItemStatusStyle | src/lib/order-status-mapping.js:53-92 | the gray default style is returned iff the string is not an item status |
| OrderStatusMapping.SharedStyles | src/lib/order-status-mapping.js:75-86 | the fall-through cases share one style per pair: the two PENDINGs, CANCELED/RETURNED, the two REJECTEDs |
| OrderStatusBadge.Variant | src/components/order/OrderStatusBadge.jsx:3-13 | the table's variant when the status has an entry, 'secondary' otherwise |
| OrderStatusBadge.BadgeText | src/components/order/OrderStatusBadge.jsx:15 | the badge shows the raw status unchanged |
| OrderStatusBadge.VariantEntriesExactly | src/components/order/OrderStatusBadge.jsx:3-10 | the table has entries for exactly PENDING, PAID, ACCEPTED, SHIPPED, DELIVERED and CANCELLED |
| OrderStatusBadge.MissingLooksPending | src/components/order/OrderStatusBadge.jsx:3-13 | a status without an entry, REJECTED included, gets PENDING's 'secondary' variant |
| SellerOrders.QueryFor | src/routes/_need-auth/_seller/seller/orders.tsx:65-69 | the query asks for the zero-based page `page-1`, 20 rows, and no status exactly when the filter is 'all' |
| SellerOrders.PageCount | src/routes/_need-auth/_seller/seller/orders.tsx:304 | `ceil(total/20)`: zero iff there are no rows, otherwise the smallest n with total ≤ 20n |
| SellerOrders.RangeWithinTotal | src/routes/_need-auth/_seller/seller/orders.tsx:298 | on every linked page the shown range `(page-1)*20+1 .. min(page*20,total)` is a non-empty window of at most 20 rows inside 1..total |
| SellerOrders.PrevPage | src/routes/_need-auth/_seller/seller/orders.tsx:302 | "previous" never goes below 1 and otherwise steps back by one |
| SellerOrders.NextPage | src/routes/_need-auth/_seller/seller/orders.tsx:316-318 | `Math.min(prev + 1, ceil(total/20))`: steps forward inside the range, stays on the last page (`ceil(total/20)`) on or past it, so it never passes that page, and goes to 0 when there are no rows |
| SellerOrders.PageLinks | src/routes/_need-auth/_seller/seller/orders.tsx:304-313 | there are `ceil(total/20)` links numbered 1, 2, … in order |
| SellerOrders.ActiveLinkUnique | src/routes/_need-auth/_seller/seller/orders.tsx:304-307 | at most one link is active, and the link of an in-range page is active |
| SellerOrders.ApplyStatus | src/routes/_need-auth/_seller/seller/orders.tsx:91-97 | the list keeps its length; matching rows change only their status, other rows are unchanged |
| SellerOrders.ApplyStatusIdempotent | src/routes/_need-auth/_seller/seller/orders.tsx:91-97 | applying the same confirmed update twice equals applying it once |
| SellerOrders.PickerForbids | src/routes/_need-auth/_seller/seller/orders.tsx:417-458 | ORDERED, CONFIRMED and CANCEL_PENDING can never be chosen, a CONFIRMED item cannot be changed, and any choice is SHIPPING or an item status |
| SellerOrders.SellerOrdersPage.constructor | src/routes/_need-auth/_seller/seller/orders.tsx:58-62 | empty list, filter 'all', total 0, no selection, page 1 |
| SellerOrders.SellerOrdersPage.LoadReceived | src/routes/_need-auth/_seller/seller/orders.tsx:72-79 | with no data nothing changes; otherwise the rows and the total are those fetched, the rest unchanged |
| SellerOrders.SellerOrdersPage.SetStatusFilter | src/routes/_need-auth/_seller/seller/orders.tsx:178 | only the filter changes |
| SellerOrders.SellerOrdersPage.SelectRow | src/routes/_need-auth/_seller/seller/orders.tsx:280 | the clicked row becomes the selection; nothing else changes |
| SellerOrders.SellerOrdersPage.PickStatus | src/routes/_need-auth/_seller/seller/orders.tsx:417-428 | an allowed choice changes only the selected copy's status; a locked picker or a disabled option changes nothing |
| SellerOrders.SellerOrdersPage.HandleShippingSubmit | src/routes/_need-auth/_seller/seller/orders.tsx:81-104 | no selection: nothing is sent or changed; otherwise one update is sent, and the list is patched by `ApplyStatus` only when it succeeds |
| SellerOrders.SellerOrdersPage.Prev | src/routes/_need-auth/_seller/seller/orders.tsx:302 | the page becomes `PrevPage` of the old page; nothing else changes |
| SellerOrders.SellerOrdersPage.Next | src/routes/_need-auth/_seller/seller/orders.tsx:316-318 | the page becomes `NextPage` of the old page; nothing else changes |
| SellerOrders.SellerOrdersPage.GoTo | src/routes/_need-auth/_seller/seller/orders.tsx:308 | clicking link `num` goes to page `num+1`, the number that link shows |
| CartGroup.IdsOf | src/components/cart/cart-group.jsx:46 | the ids of the group's lines, one per line, in order |
| CartGroup.WithQuantity | src/components/cart/cart-group.jsx:70-71 | the copied lines with only the edited line's quantity replaced |
| CartGroup.QuantityFloorKept | src/components/cart/cart-group.jsx:64-72 | an edit the `newQty < 1` guard lets through keeps every quantity at one or more |
| CartGroup.RemoveAt | src/components/cart/cart-group.jsx:95-96 | `splice(index, 1)`: one line shorter, the lines before the index kept, the ones after shifted down |
| CartGroup.RemoveKeepsFloor | src/components/cart/cart-group.jsx:94-103 | removing a line keeps the others' quantities at one or more |
| CartGroup.Selection.constructor | src/components/cart/cart-group.jsx:24-25 | the shared selection starts with the ids the page passes in |
| CartGroup.CartGroupView.constructor | src/components/cart/cart-group.jsx:21-28 | the group starts with a copy of its items and has sent and reported nothing |
| CartGroup.CartGroupView.SelectItem | src/components/cart/cart-group.jsx:31-41 | selecting adds exactly that id, deselecting removes exactly that id |
| CartGroup.CartGroupView.SelectAll | src/components/cart/cart-group.jsx:44-62 | the loop adds (or removes) exactly this group's ids; the selection of every other id is unchanged |
| CartGroup.CartGroupView.ChangeQuantity | src/components/cart/cart-group.jsx:64-92 | below one nothing happens; otherwise the new quantity is written, reported and sent; anything but 200 restores the old lines and reports the old quantity |
| CartGroup.CartGroupView.Delete | src/components/cart/cart-group.jsx:94-127 | the id is always sent; only 204 removes the line, deselects the id and refreshes the count, and an emptied group asks to be dropped |
| CartGroup.EmptyGroupHeaderChecked | src/components/cart/cart-group.jsx:136 | an empty group's header checkbox is checked, since `every` over no lines is true |
| CartGroup.HeaderCheckedIff | src/components/cart/cart-group.jsx:136 | the header checkbox is checked iff all the group's ids are selected |
| OrderSlice.Apply | src/store/orderSlice.js:11-17 | a set leaves exactly the payload and a clear leaves the empty list, whatever the list held before |
| OrderSlice.ReplayLastWins | src/store/orderSlice.js:11-17 | after any non-empty run of actions the list is what the last action put there |
| OrderSlice.SetThenClear | src/store/orderSlice.js:11-17 | set then clear leaves the empty list; clearing twice is clearing once |
| OrderSlice.OrderStore.constructor | src/store/orderSlice.js:3-5 | the list starts empty |
| OrderSlice.OrderStore.SetItems | src/store/orderSlice.js:11-14 | the list becomes the payload |
| OrderSlice.OrderStore.Clear | src/store/orderSlice.js:15-17 | the list becomes empty |
| Checkout.FindAddress | src/routes/_needAuth/order/checkout.jsx:69-71 | `find`: nothing iff no address has the id; otherwise an address with that id that comes before every other one with it |
| Checkout.PreCheckIds | src/routes/_needAuth/order/checkout.jsx:54 | the pre-check is asked for the stored items' cart-item ids, one per item, in order |
| Checkout.RenderBranch | src/routes/_needAuth/order/checkout.jsx:101-120 | loading view iff loading and no answer; error view iff no answer and not loading, or an answer with an error; the form iff an answer without error |
| Checkout.SettledViews | src/routes/_needAuth/order/checkout.jsx:74-78 | once loading has ended the spinner is never shown, and the form shows iff an answer is stored without error |
| Checkout.CheckoutPage.View | src/routes/_needAuth/order/checkout.jsx:101-120 | the page's current view: the form exactly when an answer is stored without error, and never the spinner once loading has ended |
| Checkout.CheckoutPage.constructor | src/routes/_needAuth/order/checkout.jsx:31-36 | no answer, not loading, no error, no address, nothing sent |
| Checkout.CheckoutPage.FetchCheckout | src/routes/_needAuth/order/checkout.jsx:48-79 | one pre-check with the stored ids; a throw sets error; OUT_OF_STOCK navigates to /cart with the message and stores nothing; otherwise the answer is stored with its default address selected; loading ends false on every path |
| Checkout.CheckoutPage.SelectAddress | src/routes/_needAuth/order/checkout.jsx:141-143 | the selection becomes the first address with the chosen id; nothing else changes |
| Checkout.CheckoutPage.HandleOrder | src/routes/_needAuth/order/checkout.jsx:86-98 | the order is always created with the fixed address and item ids; success moves the browser to /order/complete with the new id, failure raises the alert; loading ends false |
| PaymentProcess.OrderIdFrom | src/routes/_need-auth/order/process.jsx:19 | the order id is `orderId` when it is truthy, `merchant_uid` otherwise; it is truthy iff one of the two is |
| PaymentProcess.ParseStoredIds | src/routes/_need-auth/order/process.jsx:47 | an absent or empty entry reads as `[]`, stored ids read as themselves, and only unparsable text throws |
| PaymentProcess.PaymentMethod | src/routes/_need-auth/order/process.jsx:52 | 'TOSS' iff the payment key is truthy, 'PORTONE' otherwise |
| PaymentProcess.PlannedRequest | src/routes/_need-auth/order/process.jsx:40-56 | no verification iff there is an error code, no order id, or unparsable stored ids; otherwise the request carries that order id, method, key, imp_uid, amount and the stored cart ids |
| PaymentProcess.PaymentReturnPage.constructor | src/routes/_need-auth/order/process.jsx:28-32 | the guard flag starts false and nothing has been sent or navigated |
| PaymentProcess.PaymentReturnPage.Run | src/routes/_need-auth/order/process.jsx:34-77 | a second run does nothing; an abort or a failed verification replaces the location with /cart and keeps the stored ids; only a successful verification removes them, refreshes the cart count and replaces the location with /order/complete for the same order id |
| PaymentProcess.ErrorCodeAborts | src/routes/_need-auth/order/process.jsx:42-44 | a provider error code stops the handler before verification |
| PaymentProcess.MerchantUidFallback | src/routes/_need-auth/order/process.jsx:19 | with no orderId but a merchant_uid and no error code, verification goes ahead with merchant_uid and, with nothing stored, an empty id list |
| OrderPagination.PageNumbers | src/components/order/OrderPagination.jsx:6 | `totalPages` numbers, the i-th being i+1 |
| OrderPagination.Render | src/components/order/OrderPagination.jsx:12-39 | previous asks for page-1 and is disabled iff on page 1; next asks for page+1 and is disabled iff on the last page; page button i asks for i+1 and is 'default' iff it is the current page, 'outline' otherwise |
| OrderPagination.PagesAscending | src/components/order/OrderPagination.jsx:6 | the page buttons' targets strictly increase |
| OrderPagination.OneHighlighted | src/components/order/OrderPagination.jsx:24 | an in-range current page highlights its own button; never two buttons; none when out of range |
| OrderPagination.NextNeverDisabledWhenEmpty | src/components/order/OrderPagination.jsx:33-37 | with zero pages "next" stays enabled and asks for the following page |
| OrderCard.Digits | src/components/order/OrderCard.jsx:14 | the first replace leaves only digits, no '-', and never lengthens the text |
| OrderCard.Hyphenate | src/components/order/OrderCard.jsx:14 | eleven digits become 13 characters: the 3-4-4 groups of the input with '-' at positions 3 and 8 |
| OrderCard.FormatPhone | src/components/order/OrderCard.jsx:12-15 | a missing or empty phone reads '정보 없음'; fewer than 11 digits come back bare; with 11 or more the first 11 are grouped and the rest appended unchanged |
| OrderCard.ElevenDigitsShape | src/components/order/OrderCard.jsx:14 | exactly eleven digits give ddd-dddd-dddd |
| OrderCard.HyphenateRemoves | src/components/order/OrderCard.jsx:14 | removing the two hyphens of an eleven-digit number grouped 3-4-4 gives back the eleven digits |
| OrderCard.FormatPhoneRoundTrip | src/components/order/OrderCard.jsx:14 | removing the hyphens from a formatted phone gives back exactly its digits |
| OrderCard.PriceCell | src/components/order/OrderCard.jsx:46 | the price line shows the price when it is a number and a dash exactly when it is missing, never `NaN` |
| OrderCard.TotalCell | src/components/order/OrderCard.jsx:50 | the total line is `NaN` exactly when the price or the quantity is missing, never a dash |
| OrderCard.TotalAgreesWithPrice | src/components/order/OrderCard.jsx:44-51 | with both values present the total shown is the price shown times the quantity, zero iff one of them is zero, and positive iff the price is for a positive quantity |
| OrderCard.MissingPriceShowsNaN | src/components/order/OrderCard.jsx:44-51 | a missing price shows a dash on the price line but `NaN` on the total line, whatever the quantity |
| OrderCard.ItemBadgeStatus | src/components/order/OrderCard.jsx:55 | the order's status when truthy, 'PENDING' otherwise |
| OrderCard.MissingStatusBadge | src/components/order/OrderCard.jsx:55 | an item of an order without a status shows PENDING's text and variant |
| OrderHistory.FilterOrders | src/routes/_needAuth/_mypage/mypage/order/index.jsx:52-62 | an order-preserving subsequence of the orders; an order is kept iff its status passes ('ALL' or an exact match) and the keyword is empty or occurs in its id, its receiver name or some item's product name |
| OrderHistory.NoFilterKeepsAll | src/routes/_needAuth/_mypage/mypage/order/index.jsx:52-62 | 'ALL' with an empty keyword keeps every order in its original order |
| OrderHistory.SortOrders | src/routes/_needAuth/_mypage/mypage/order/index.jsx:65-78 | a permutation of the filtered orders, sorted by the comparator's key |
| OrderHistory.SortOrdersStable | src/routes/_needAuth/_mypage/mypage/order/index.jsx:65-78 | orders with the same sort key (equal dates, or equal totals) keep their filtered order |
| OrderHistory.SortOrderMeaning | src/routes/_needAuth/_mypage/mypage/order/index.jsx:65-78 | OLDEST ascending createdAt, PRICE_HIGH descending totalPrice, PRICE_LOW ascending totalPrice, anything else descending createdAt |
| OrderHistory.JsSlice | src/routes/_needAuth/_mypage/mypage/order/index.jsx:83 | `slice` never returns more elements than it was given |
| OrderHistory.PageOrders | src/routes/_needAuth/_mypage/mypage/order/index.jsx:81-83 | page p shows sorted[(p-1)*5 .. min(p*5, length)], at most five orders, and nothing past the end |
| OrderHistory.EachOrderOnItsPage | src/routes/_needAuth/_mypage/mypage/order/index.jsx:81-83 | every sorted order appears on exactly the page numbered by its position, and that page is within the page count |
| OrderHistory.TotalPages | src/routes/_needAuth/_mypage/mypage/order/index.jsx:214 | `ceil(length/5)`: zero iff there are no orders, otherwise the fewest pages of five that hold them |
| OrderHistory.CountStatus | src/routes/_needAuth/_mypage/mypage/order/index.jsx:107 | a summary count never exceeds the number of orders |
| OrderHistory.SummaryBounded | src/routes/_needAuth/_mypage/mypage/order/index.jsx:92-108 | the six summary counts, taken over the unfiltered orders, add up to at most the number of orders |
| OrderHistory.OrderHistoryPage.constructor | src/routes/_needAuth/_mypage/mypage/order/index.jsx:19-27 | no orders, loading, no error, page 1, filter 'ALL', empty keyword, sort 'LATEST' |
| OrderHistory.OrderHistoryPage.CurrentOrders | src/routes/_needAuth/_mypage/mypage/order/index.jsx:52-83 | at most five orders are listed, each one a fetched order that passes both filters |
| OrderHistory.OrderHistoryPage.Pagination | src/routes/_needAuth/_mypage/mypage/order/index.jsx:212-216 | the control gets one button per page of the filtered orders (`ceil(sortedOrders.length / 5)`, the sort keeping the length), the current page highlighted, previous disabled on page 1 and next disabled on the last page |
| OrderHistory.OrderHistoryPage.LoadOrders | src/routes/_needAuth/_mypage/mypage/order/index.jsx:31-46 | the answer replaces the orders, a failure sets the error message; loading ends either way |
| OrderHistory.OrderHistoryPage.SetStatusFilter | src/routes/_needAuth/_mypage/mypage/order/index.jsx:125-128 | the filter changes and the page returns to 1 |
| OrderHistory.OrderHistoryPage.SetSearchKeyword | src/routes/_needAuth/_mypage/mypage/order/index.jsx:158-161 | the keyword changes and the page returns to 1 |
| OrderHistory.OrderHistoryPage.SetSortType | src/routes/_needAuth/_mypage/mypage/order/index.jsx:142 | the sort changes and the page stays |
| OrderHistory.OrderHistoryPage.SetPage | src/routes/_needAuth/_mypage/mypage/order/index.jsx:215 | the page becomes the one asked for |
| RowToggle.Toggled | src/routes/_needAuth/_admin/admin/users.jsx:50 | the toggled id is expanded afterwards exactly when it was not before, and an absent id is appended at the end |
| RowToggle.ToggledEffect | src/routes/_needAuth/_admin/admin/users.jsx:50 | an absent id is appended at the end; a present id loses every occurrence and the rest keep their order |
| RowToggle.ToggledMembership | src/routes/_needAuth/_admin/admin/users.jsx:50 | toggling flips the id's membership and leaves every other id's membership alone |
| RowToggle.ToggledAsFilter | src/routes/_needAuth/_admin/admin/users.jsx:50 | removing a present id is the same as any filter that drops exactly that id |
| RowToggle.ToggleTwice | src/routes/_needAuth/_admin/admin/users.jsx:49-51 | toggling the same id twice restores its membership |
| RowToggle.ToggleTwiceAbsent | src/routes/_needAuth/_admin/admin/users.jsx:49-51 | toggling an absent id twice gives back exactly the original list |
| RowToggle.FilterAppendDrop | src/routes/_needAuth/_admin/admin/users.jsx:50 | dropping an id from a list with that id appended gives the list back when the id was absent |
| AdminUsers.UserListPage.constructor | src/routes/_needAuth/_admin/admin/users.jsx:17-48 | the user list is fixed at creation and no row is expanded |
| AdminUsers.UserListPage.ToggleRow | src/routes/_needAuth/_admin/admin/users.jsx:49-51 | the expanded list is toggled: the id's membership flips, other ids keep theirs; the user list is a constant |
| AdminOrders.ItemStatusMap | src/routes/_needAuth/_admin/admin/orders.jsx:65-67 | `Object.fromEntries`: every item id is a key, every key comes from an item with that status, and the last item's status wins |
| AdminOrders.ItemStatusMapLastWins | src/routes/_needAuth/_admin/admin/orders.jsx:65-67 | for every id, the map holds the status of the last item carrying that id, as `Object.fromEntries` keeps the last entry of each key |
| AdminOrders.InitialRow | src/routes/_needAuth/_admin/admin/orders.jsx:61-73 | draft and saved order status both equal the order's status, and the draft and saved item maps are the same map holding every item id |
| AdminOrders.EditRow | src/routes/_needAuth/_admin/admin/orders.jsx:81-116 | a status change sets only the draft status and leaves both item maps as they are; save copies the draft status and item map into the saved ones; reset copies the saved status and item map into the draft; save and reset leave the row clean; every edit keeps the item maps in step |
| AdminOrders.EditRows | src/routes/_needAuth/_admin/admin/orders.jsx:82-115 | only rows with the matching order id are edited; the list keeps its length and the other rows |
| AdminOrders.InitialRowsClean | src/routes/_needAuth/_admin/admin/orders.jsx:61-73 | every row starts clean, so draft and saved item statuses agree |
| AdminOrders.EditKeepsSynced | src/routes/_needAuth/_admin/admin/orders.jsx:61-116 | no handler makes the draft item statuses differ from the saved ones |
| AdminOrders.ResetAfterSave | src/routes/_needAuth/_admin/admin/orders.jsx:89-116 | reset straight after save changes nothing |
| AdminOrders.SaveResetIdempotent | src/routes/_needAuth/_admin/admin/orders.jsx:89-116 | saving twice is saving once, and resetting twice is resetting once |
| AdminOrders.ResetUndoesChange | src/routes/_needAuth/_admin/admin/orders.jsx:81-87 | a draft change followed by reset is a plain reset, and restores a clean row exactly |
| AdminOrders.AdminOrdersPage.constructor | src/routes/_needAuth/_admin/admin/orders.jsx:60-73 | every order becomes its initial row, nothing is expanded, and the item maps start in step |
| AdminOrders.AdminOrdersPage.ToggleRow | src/routes/_needAuth/_admin/admin/orders.jsx:75-79 | the expanded list is toggled; the rows are unchanged |
| AdminOrders.AdminOrdersPage.ChangeOrderStatus | src/routes/_needAuth/_admin/admin/orders.jsx:81-87 | the rows become `EditRows` with the status change; the item maps stay in step |
| AdminOrders.AdminOrdersPage.Save | src/routes/_needAuth/_admin/admin/orders.jsx:89-102 | the matching row is saved and the saved alert is always shown |
| AdminOrders.AdminOrdersPage.Reset | src/routes/_needAuth/_admin/admin/orders.jsx:104-116 | the matching row is reset; nothing else changes |
| AdminSellers.Decide | src/routes/_needAuth/_admin/admin/sellers.jsx:50-57 | the id records the decision; every other id keeps its presence and its value |
| AdminSellers.Cancel | src/routes/_needAuth/_admin/admin/sellers.jsx:60-66 | the id's key is deleted; every other id keeps its presence and its value |
| AdminSellers.DecisionLabel | src/routes/_needAuth/_admin/admin/sellers.jsx:138 | '승인됨' iff the recorded decision is 'approved', '거절됨' otherwise |
| AdminSellers.ButtonsIffUndecided | src/routes/_needAuth/_admin/admin/sellers.jsx:110 | on a dictionary the buttons wrote, the buttons show iff no decision is recorded, and the label reads '거절됨' iff the decision is 'rejected' |
| AdminSellers.EditsKeepDecisions | src/routes/_needAuth/_admin/admin/sellers.jsx:50-66 | approve, reject and cancel keep every recorded value one of 'approved' and 'rejected' |
| AdminSellers.DecideThenCancel | src/routes/_needAuth/_admin/admin/sellers.jsx:50-66 | approve or reject followed by cancel equals cancel alone, restores the dictionary when the id was undecided, and brings the buttons back |
| AdminSellers.SellerApprovalPage.constructor | src/routes/_needAuth/_admin/admin/sellers.jsx:17-48 | the seller list is fixed, no decision is recorded, nothing is expanded |
| AdminSellers.SellerApprovalPage.Approve | src/routes/_needAuth/_admin/admin/sellers.jsx:50-52 | the dictionary becomes `Decide(…, 'approved')`; the expanded rows stay |
| AdminSellers.SellerApprovalPage.Reject | src/routes/_needAuth/_admin/admin/sellers.jsx:55-57 | the dictionary becomes `Decide(…, 'rejected')`; the expanded rows stay |
| AdminSellers.SellerApprovalPage.CancelDecision | src/routes/_needAuth/_admin/admin/sellers.jsx:60-66 | the dictionary becomes `Cancel(…)`; the expanded rows stay |
| AdminSellers.SellerApprovalPage.ToggleRow | src/routes/_needAuth/_admin/admin/sellers.jsx:69-71 | the expanded list is toggled; the decisions stay |
| Claims.FilterRequests | src/routes/_needAuth/seller/claims.jsx:55-69 | an order-preserving subsequence; a request is kept iff the type and status filters are '전체' or match exactly and an empty keyword or a case-insensitive substring of id+orderNo+customerName+productName |
| Claims.AllCriteriaOff | src/routes/_needAuth/seller/claims.jsx:57-60 | with both filters '전체' and no keyword every request is shown in order |
| Claims.DatesIgnored | src/routes/_needAuth/seller/claims.jsx:48-69 | neither the date inputs nor a request's date ever change the filtered list |
| Claims.KeywordCaseInsensitive | src/routes/_needAuth/seller/claims.jsx:59-63 | a keyword that differs only in letter case filters the same way |
| Claims.PendingCount | src/routes/_needAuth/seller/claims.jsx:71-73 | counts requests in '접수' or '처리대기', never more than the list |
| Claims.CompletedCount | src/routes/_needAuth/seller/claims.jsx:74 | counts requests in '완료', never more than the list |
| Claims.RefundWaitingCount | src/routes/_needAuth/seller/claims.jsx:75-77 | counts requests that are not exchanges and not '완료', never more than the list |
| Claims.CountersBounded | src/routes/_needAuth/seller/claims.jsx:71-77 | pending + completed ≤ total, and completed + refund-waiting ≤ total |
| Claims.FindById | src/routes/_needAuth/seller/claims.jsx:53 | `find`: none iff no request has the id; otherwise a request with that id, the head when the head matches |
| Claims.FindByIdIsFirst | src/routes/_needAuth/seller/claims.jsx:53 | `find` returns the first request with the id: the request at the first index carrying it, whatever later requests share the id |
| Claims.SelectedRequest | src/routes/_needAuth/seller/claims.jsx:53 | the found request, else the first request; nothing only for an empty list |
| Claims.InitialSelectedId | src/routes/_needAuth/seller/claims.jsx:51 | the first request's id, null iff the list is empty |
| Claims.SelectionFallsBackToFirst | src/routes/_needAuth/seller/claims.jsx:51-53 | the initial selection and any unknown id both show the first request |
| AdminProducts.DetailsOnlyFulfilled | src/routes/_need-auth/_admin/admin/products.jsx:69-75 | after the first n settled lookups a product id has an entry iff one of its lookups was fulfilled, and the entry is that lookup's detail |
| AdminProducts.BuildDetailsMap | src/routes/_need-auth/_admin/admin/products.jsx:69-75 | the `forEach` loop builds the dictionary of the specification, holding exactly the ids whose lookup was fulfilled |
| AdminProducts.CountStatus | src/routes/_need-auth/_admin/admin/products.jsx:96-98 | a status counter never exceeds the number of products |
| AdminProducts.CountersBounded | src/routes/_need-auth/_admin/admin/products.jsx:94-100 | pending + approved + rejected ≤ total |
| AdminProducts.RowStatus | src/routes/_need-auth/_admin/admin/products.jsx:204 | the product's status, or PENDING when it is empty |
| AdminProducts.RowLabel | src/routes/_need-auth/_admin/admin/products.jsx:206-218 | the Korean label of the three known statuses, the status itself otherwise |
| AdminProducts.RowVariant | src/routes/_need-auth/_admin/admin/products.jsx:212-219 | default iff APPROVED, destructive iff REJECTED, outline for everything else |
| AdminProducts.ButtonsEnabledIff | src/routes/_need-auth/_admin/admin/products.jsx:220-265 | the approve and reject buttons are enabled iff the status is PENDING or empty, and then the badge reads 승인 대기 |
| AdminProducts.OrDash | src/routes/_need-auth/_admin/admin/products.jsx:197-199 | a missing detail field shows as '-' |
| AdminProducts.ActionLabel | src/routes/_need-auth/_admin/admin/products.jsx:28 | 승인 iff the next status is APPROVED, 반려 otherwise |
| AdminProducts.SetStatus | src/routes/_need-auth/_admin/admin/products.jsx:37-39 | the local list keeps its length; rows with the id get the new status, all others are unchanged |
| AdminProducts.SetStatusIdempotent | src/routes/_need-auth/_admin/admin/products.jsx:37-39 | applying the same status change twice equals applying it once |
| AdminProducts.ErrorText | src/routes/_need-auth/_admin/admin/products.jsx:44-47 | the response's message, else its error, else the fallback text |
| AdminProducts.PendingProductsPage.constructor | src/routes/_need-auth/_admin/admin/products.jsx:17-21 | an empty list and dictionary, not loading, no error |
| AdminProducts.PendingProductsPage.Load | src/routes/_need-auth/_admin/admin/products.jsx:52-92 | loading ends; on success the list is the array (or empty) and a non-empty list replaces the dictionary with the fulfilled details; on failure the list and dictionary stay and the error text is set |
| AdminProducts.PendingProductsPage.UpdateStatus | src/routes/_need-auth/_admin/admin/products.jsx:27-50 | a declined confirmation changes nothing; otherwise one request is sent, and success updates the row and alerts '<action> 처리되었습니다.' while failure alerts the error text and keeps the list |
| AdminProductList.QueryFor | src/routes/_need-auth/_admin/admin/products/index.jsx:46-48 | the keyword as typed; the status is empty iff the form says ALL (or is empty), else the form's status; the page is zero-based and the size 20 |
| AdminProductList.ChangeStatus | src/routes/_need-auth/_admin/admin/products/index.jsx:59-65 | the rows keep their length; rows with the id get the new status, all others are unchanged |
| AdminProductList.ChangeStatusUnknownId | src/routes/_need-auth/_admin/admin/products/index.jsx:59-65 | a status change for an id no row has leaves the rows as they were |
| AdminProductList.ChangeStatusLastWins | src/routes/_need-auth/_admin/admin/products/index.jsx:59-65 | of two status changes on one id only the later one shows |
| AdminProductList.ToastText | src/routes/_need-auth/_admin/admin/products/index.jsx:55 | the error's non-empty message, else the fixed failure text |
| AdminProductList.ProductListPage.constructor | src/routes/_need-auth/_admin/admin/products/index.jsx:33-38 | no rows, field 'product', empty keyword, status ALL, page 1, total 0 |
| AdminProductList.ProductListPage.FetchProducts | src/routes/_need-auth/_admin/admin/products/index.jsx:44-57 | one query built from the current form; success replaces the total and the rows; failure keeps them and adds one toast |
| AdminProductList.ProductListPage.HandleStatusChange | src/routes/_need-auth/_admin/admin/products/index.jsx:59-65 | the rows become ChangeStatus of the old rows; nothing else changes |
| AdminProductList.ProductListPage.SetSearchKeyword | src/routes/_need-auth/_admin/admin/products/index.jsx:125 | only the keyword changes |
| AdminProductList.ProductListPage.SetOrderStatus | src/routes/_need-auth/_admin/admin/products/index.jsx:146 | only the status filter changes |
| AdminProductList.ProductListPage.SetSearchField | src/routes/_need-auth/_admin/admin/products/index.jsx:97 | only the search field changes |
| AdminProductList.ProductListPage.ResetFilters | src/routes/_need-auth/_admin/admin/products/index.jsx:71-75 | the form is back to its initial values, the rows stay, nothing is fetched, and the next query is the unfiltered first page |
| ProductFilter.FindCategory | src/components/product/product-filter.jsx:18-19 | `find`: none iff no category has the id, otherwise a listed category with that id |
| ProductFilter.FindCategoryIsFirst | src/components/product/product-filter.jsx:18-19 | `find` returns the first category with the id: the category at the first index carrying it, whatever later categories share the id |
| ProductFilter.SubIds | src/components/product/product-filter.jsx:20 | the ids of a category's subcategories, one per subcategory, in order |
| ProductFilter.SubcategoryIds | src/components/product/product-filter.jsx:17-20 | an unknown parent has no subcategories; a known one has its subcategories' ids |
| ProductFilter.ParentClear | src/components/product/product-filter.jsx:25-29 | clearing a selected parent removes it and all its subcategories, keeps every other id iff it was selected, and keeps their order |
| ProductFilter.ParentSelect | src/components/product/product-filter.jsx:30-36 | selecting a parent keeps the old selection as a prefix, then the parent, then only subcategories not yet selected; afterwards the parent and every subcategory are selected |
| ProductFilter.UnknownParentIsPlainToggle | src/components/product/product-filter.jsx:16-50 | a parent the tree does not know toggles exactly as a single category checkbox does |
| ProductFilter.InactiveIffEmpty | src/components/product/product-filter.jsx:66-77 | no filter is active iff the state is the one reset reports |
| ProductFilter.ProductFilterPanel.constructor | src/components/product/product-filter.jsx:10-14 | the store's tree, empty query, nothing selected, rating 0 |
| ProductFilter.ProductFilterPanel.ParentCategoryToggle | src/components/product/product-filter.jsx:16-41 | the selection becomes the parent toggle of the old one with the tree's subcategories, and the new state (`Current`: query, selection and rating, as `applyFilters` passes them) is reported |
| ProductFilter.ProductFilterPanel.CategoryToggle | src/components/product/product-filter.jsx:43-50 | the selection has the id toggled, and the new state (`Current`: query, selection and rating, as `applyFilters` passes them) is reported |
| ProductFilter.ProductFilterPanel.SearchChange | src/components/product/product-filter.jsx:52-56 | only the query changes, and the new state (`Current`: query, selection and rating, as `applyFilters` passes them) is reported |
| ProductFilter.ProductFilterPanel.Reset | src/components/product/product-filter.jsx:66-75 | the panel is empty, no filter is active, and the empty filter is reported |
| ProductFilterStore.Merge | src/store/product-filter-store.ts:26-29 | each key present in the partial update overwrites that filter; every missing key keeps the current value |
| ProductFilterStore.MergeNeutralAndIdempotent | src/store/product-filter-store.ts:26-29 | an empty update leaves the filters as they are, and repeating an update changes nothing more |
| ProductFilterStore.MergeCompose | src/store/product-filter-store.ts:26-29 | two updates in a row equal one update of their combination, the later keys winning |
| ProductFilterStore.FilterStore.constructor | src/store/product-filter-store.ts:17-24 | empty query, categories '', not a11y-guaranteed, empty grade, sort 'on-development' |
| ProductFilterStore.FilterStore.SetFilters | src/store/product-filter-store.ts:26-29 | the filters become the merge of the old filters with the update; the sort stays |
| ProductFilterStore.FilterStore.SetSortBy | src/store/product-filter-store.ts:31 | only the sort changes |
| ProductFilterStore.FilterStore.ResetFilters | src/store/product-filter-store.ts:33-42 | filters and sort are back to their initial values |
| ProductQueries.NonEmpty | src/api/product/queries.ts:15 | `value \|\| undefined`: absent iff the string is empty, else the string |
| ProductQueries.CategoryParam | src/api/product/queries.ts:16-18 | an array sends its first element (nothing for an empty array); a string is sent iff it is non-empty |
| ProductQueries.QueryParams | src/api/product/queries.ts:12-20 | the caller's parameters when given; otherwise no page or size, the store's keyword and category, and a sort iff the store's sort is not the initial 'on-development' |
| ProductQueries.UseGetProducts | src/api/product/queries.ts:22-24 | the cache key and the fetch carry the same parameters, the ones QueryParams derives |
| ProductQueries.InitialStoreQuery | src/api/product/queries.ts:12-20 | the store's initial state requests everything: no keyword, category or sort |
| ProductQueries.UnreadFieldsIgnored | src/api/product/queries.ts:12-20 | the a11y flag and the seller grade in the store never change the request |
| ProductsRouteTsx.StringOrEmpty | src/routes/products/index.tsx:28 | a string parameter as given, anything else as '' |
| ProductsRouteTsx.ValidateSearch | src/routes/products/index.tsx:27-32 | the three text parameters are kept iff they are strings, and the a11y flag is set iff it is the string 'true' or the boolean true |
| ProductsRouteTsx.TargetCategories | src/routes/products/index.tsx:60-76 | no URL category stores ''; an unknown one stores [id]; a parent stores [id] followed by its subcategory ids |
| ProductsRouteTsx.EffectUpdate | src/routes/products/index.tsx:74-79 | the effect writes every key of the filters: the query, the target categories, the a11y flag and the grade |
| ProductsRouteTsx.EmptyUrlGivesInitialFilters | src/routes/products/index.tsx:59-80 | from any store state, a URL without parameters writes exactly the store's initial filters |
| ProductsRouteTsx.CategoriesArray | src/routes/products/index.tsx:112-116 | the array passed in the panel's `filters` prop: an array as it is, a non-empty string wrapped in an array, '' as the empty array |
| ProductsRouteTsx.TargetCategoriesAsArray | src/routes/products/index.tsx:59-116 | the categories array the page passes as the panel's `filters` prop is empty for no URL category, else the URL category followed by its subcategories in the tree's order |
| ProductsRouteTsx.OrZero | src/routes/products/index.tsx:87 | a missing number counts as 0 |
| ProductsRouteTsx.SortedProducts | src/routes/products/index.tsx:82-96 | a permutation of the fetched page (empty when there is none), ordered by the chosen sort key |
| ProductsRouteTsx.SortedProductsStable | src/routes/products/index.tsx:82-96 | products of the page with the same sort key keep their fetched order |
| ProductsRouteTsx.SortOrderMeaning | src/routes/products/index.tsx:84-96 | neighbours are in ascending price, descending price, newest first, or most sold first, by the sort order |
| ProductsRouteJsx.ValidateSearch | src/routes/products/index.jsx:19-24 | the three text parameters are kept iff they are strings, and the a11y flag is set iff it is exactly the string 'true' |
| ProductsRouteJsx.ValidateSearchDiffers | src/routes/products/index.jsx:22 | this route and the TypeScript one normalise alike except for a boolean `true` flag, which only this one drops |
| ProductsRouteJsx.SpreadCategories | src/routes/products/index.jsx:41 | `[...categoryId]` yields one one-character id per character of the URL category |
| ProductsRouteJsx.SpreadLosesLongIds | src/routes/products/index.jsx:41 | a URL category of two or more characters is itself never among the initial categories |
| ProductsRouteJsx.FilterProducts | src/routes/products/index.jsx:71-85 | an order-preserving subsequence holding exactly the products whose name or description contains the lower-cased query (when there is one) and whose category is selected (when any is) |
| ProductsRouteJsx.EmptyFiltersKeepAll | src/routes/products/index.jsx:71-85 | no query and no categories keep every product in order |
| ProductsRouteJsx.SortProducts | src/routes/products/index.jsx:87-99 | a permutation of the filtered products ordered by the chosen sort key |
| ProductsRouteJsx.SortProductsStable | src/routes/products/index.jsx:87-99 | products with the same sort key keep their filtered order |
| ProductsRouteJsx.PriceSortIgnoresProductPrice | src/routes/products/index.jsx:89-92 | products that carry no `price` field keep their order under both price sorts |
| ProductsRouteJsx.NoneKeyedIdentity | src/routes/products/index.jsx:87-99 | a stable sort by a key that is 0 everywhere leaves the sequence unchanged |
| ProductsRouteJsx.InsertFront | src/routes/products/index.jsx:87-99 | inserting an element with key 0 into a sequence whose keys are all 0 puts it first |
| ProductsRouteJsx.ProductsPage.constructor | src/routes/products/index.jsx:38-47 | no products, filters from the URL query and its spread category, sort 'on-development', not loading |
| ProductsRouteJsx.ProductsPage.Fetch | src/routes/products/index.jsx:49-69 | one query with the URL's parameters; the products are replaced only on HTTP 200; a throw adds one toast; loading ends |
| ProductsRouteJsx.ProductsPage.SetFilters | src/routes/products/index.jsx:111 | the panel's query and categories replace the filters; nothing else changes |
| ProductsRouteJsx.ProductsPage.SetSortBy | src/routes/products/index.jsx:120-132 | only the sort changes |
| ProductsRouteJsx.ProductsPage.Shown | src/routes/products/index.jsx:71-99 | the listed products are exactly the fetched products that pass the filters, each once, ordered by the chosen sort key |
| Signup.EmailShape | src/routes/_auth/auth/oauth-signup.jsx:73 | an accepted email has no white space, exactly one '@', and text before it |
| Signup.TwoAtsRejected | src/routes/_auth/auth/oauth-signup.jsx:73 | a text with two '@' signs is never accepted as an email |
| Signup.PhoneIgnoresHyphens | src/routes/_auth/auth/oauth-signup.jsx:88 | inserting a '-' anywhere changes neither the digits nor the phone verdict |
| Signup.ValidateField | src/routes/_auth/auth/oauth-signup.jsx:69-95 | email: required, then accepted iff it matches the email pattern; name and nickname: required, then at least 2 characters; phone: required, then 10 or 11 digits once hyphens are removed; any other field: no error |
| Signup.PhoneFieldWithHyphens | src/routes/_auth/auth/oauth-signup.jsx:85-91 | a phone number with a hyphen gets the same verdict as without it |
| Signup.PhoneLengthBounds | src/routes/_auth/auth/oauth-signup.jsx:88 | fewer than 10 or more than 11 characters after removing hyphens is always the invalid-phone message |
| Signup.StepError | src/routes/_auth/auth/oauth-signup.jsx:97-157 | no error iff the step is not email, nickname or phone, or the server answered AVAILABLE; a throw gives the field's failure message, any other answer its already-taken message |
| Signup.StepMessagesDistinct | src/routes/_auth/auth/oauth-signup.jsx:100-154 | the six taken and failure messages of the three checked steps are all different |
| Signup.OAuthTempToken | src/routes/_auth/auth/oauth-signup.jsx:8-10 | the Kakao screen always has a token string, and it is invalid iff the raw token is missing or empty |
| Signup.SignupForm.constructor | src/routes/_auth/auth/oauth-signup.jsx:45-57 | four empty fields, no errors, not completed, dialog closed, not submitting |
| Signup.SignupForm.TokenGuard | src/routes/_auth/join/index.jsx:26-32 | a missing or empty token navigates to /invalid-path; otherwise nothing happens; no other field changes either way |
| Signup.SignupForm.ValidateCheckSteps | src/routes/_auth/auth/oauth-signup.jsx:97-157 | the checked steps send one availability check with the field's value; the step passes iff StepError is none, and a failing step records its message on its own field only; nothing is navigated or submitted and the dialog is untouched |
| Signup.SignupForm.HandleSubmit | src/routes/_auth/join/index.jsx:125-142 | one join request with the form and the token; 201 completes and closes the dialog; any other status or a throw replaces all errors with the one submit message; submitting ends; no navigation |
| ProductRegistration.NumberOf | src/routes/_need-auth/_seller/seller/products/new.tsx:89-94 | `Number` of a digit run is its value; a result exists only for non-empty text, and a negative one only for text starting with '-' |
| ProductRegistration.ParseIntAgreesWithNumber | src/routes/_need-auth/_seller/seller/products/new.tsx:135-136 | on every text that `Number` reads as an integer, `parseInt` gives the same value |
| ProductRegistration.ParseIntReadsPrefix | src/routes/_need-auth/_seller/seller/products/new.tsx:89-136 | a decimal price such as '0.5', which the number input lets through, passes the `<= 0` price check yet is sent as 0 by `parseInt` |
| ProductRegistration.FormErrors | src/routes/_need-auth/_seller/seller/products/new.tsx:74-113 | a key is in the errors dictionary iff its rule fails, and it holds that rule's message |
| ProductRegistration.MessagesDistinct | src/routes/_need-auth/_seller/seller/products/new.tsx:77-109 | the seven messages are different texts |
| ProductRegistration.FormAcceptedIff | src/routes/_need-auth/_seller/seller/products/new.tsx:74-113 | the form is accepted iff name and description are not blank, a category is chosen, price and stock pass, there is a product photo and every product photo has alt text |
| ProductRegistration.LateImagesExempt | src/routes/_need-auth/_seller/seller/products/new.tsx:98-109 | adding an image with sequence 10 or more never changes the errors |
| ProductRegistration.NonNumericPriceAccepted | src/routes/_need-auth/_seller/seller/products/new.tsx:89-91 | a non-empty price the model reads as NaN raises no price error, since NaN <= 0 is false |
| ProductRegistration.ZeroPriceAndStock | src/routes/_need-auth/_seller/seller/products/new.tsx:89-95 | a price of '0' is rejected while a stock of '0' is accepted |
| ProductRegistration.PhotosFilter | src/routes/_need-auth/_seller/seller/products/new.tsx:98-101 | the photo filter is empty iff no image has sequence below 10 |
| ProductRegistration.MissingAltFilter | src/routes/_need-auth/_seller/seller/products/new.tsx:104-109 | the alt-text filter is non-empty iff some product photo has blank alt text |
| ProductRegistration.BuiltStep | src/routes/_need-auth/_seller/seller/products/new.tsx:77-109 | checking one more rule keeps the dictionary equal to the failing rules checked so far |
| ProductRegistration.BuiltIsFormErrors | src/routes/_need-auth/_seller/seller/products/new.tsx:74-113 | once all seven rules are checked the dictionary is FormErrors |
| ProductRegistration.RulesInOrder | src/routes/_need-auth/_seller/seller/products/new.tsx:74-113 | the seven checks in the source's order build exactly FormErrors |
| ProductRegistration.Check | src/routes/_need-auth/_seller/seller/products/new.tsx:77-79 | one check adds its rule's message iff the rule fails |
| ProductRegistration.FirstFile | src/routes/_need-auth/_seller/seller/products/new.tsx:178 | `find`: none iff no file has the name, otherwise a listed file with that name |
| ProductRegistration.FirstFileIsFirst | src/routes/_need-auth/_seller/seller/products/new.tsx:178 | the file found comes before every other file of that name |
| ProductRegistration.Metas | src/routes/_need-auth/_seller/seller/products/new.tsx:70 | the metadata of each entry, one per entry, in order |
| ProductRegistration.CombinedMeaning | src/routes/_need-auth/_seller/seller/products/new.tsx:171-188 | the pairs keep exactly the metadata that have a file, in order, each with the first file of its name, never more pairs than metadata |
| ProductRegistration.PayloadOf | src/routes/_need-auth/_seller/seller/products/new.tsx:131-143 | the texts as typed, price and stock through `parseInt`, and one image entry per metadata entry with the same four fields |
| ProductRegistration.RegistrationForm.constructor | src/routes/_need-auth/_seller/seller/products/new.tsx:43-58 | empty inputs, no images or files, no errors, not submitting |
| ProductRegistration.RegistrationForm.InputChange | src/routes/_need-auth/_seller/seller/products/new.tsx:60-67 | the input takes the value, and a non-empty error on that input becomes '' |
| ProductRegistration.RegistrationForm.UpdateImages | src/routes/_need-auth/_seller/seller/products/new.tsx:69-72 | the metadata and the files of the new list, in the same order |
| ProductRegistration.RegistrationForm.ValidateForm | src/routes/_need-auth/_seller/seller/products/new.tsx:74-113 | the errors become FormErrors of the form, and the result is true iff there are none |
| ProductRegistration.RegistrationForm.Submit | src/routes/_need-auth/_seller/seller/products/new.tsx:115-169 | an invalid form sends nothing and shows its errors; a valid form sends one request with its payload and files; 200 or 201 resets inputs, images and errors; any other outcome keeps them |
| ProductRegistration.RegistrationForm.CombineMetadata | src/routes/_need-auth/_seller/seller/products/new.tsx:171-188 | the loop builds the pairing that CombinedMeaning describes |
| A11ySlice.Cycle | src/store/a11ySlice.js:35 | `(level + 1) % period` stays in 0..period-1 from any level of at least -1, steps up by one, and wraps to 0 after the last level |
| A11ySlice.ContrastPeriod | src/store/a11ySlice.js:33-36 | four contrast steps return to the start level and no fewer do |
| A11ySlice.LevelPeriod | src/store/a11ySlice.js:37-48 | three text-size, spacing or line-height steps return to the start and no fewer do |
| A11ySlice.NegativeLevelStaysOut | src/store/a11ySlice.js:35-47 | a level below -1 (possible only through the merging reducers) never cycles to a positive level, since JavaScript's remainder keeps the sign |
| A11ySlice.NextAlign | src/store/a11ySlice.js:49-54 | left to center, center to right, anything else to left |
| A11ySlice.AlignCycle | src/store/a11ySlice.js:49-54 | three alignment steps return to a known alignment, and always land on one of the three |
| A11ySlice.Merge | src/store/a11ySlice.js:78-84 | each key present in the payload replaces that setting; every missing key keeps it |
| A11ySlice.MergeLaws | src/store/a11ySlice.js:78-84 | an empty payload changes nothing, a complete one replaces everything, and merging the same payload twice is merging it once |
| A11ySlice.TogglesAreInvolutions | src/store/a11ySlice.js:56-71 | each toggle flips its switch, touches nothing else, and undoes itself |
| A11ySlice.InitialInRange | src/store/a11ySlice.js:5-26 | the initial settings are within every cycle's range |
| A11ySlice.A11yStore.constructor | src/store/a11ySlice.js:5-26 | the initial settings: all levels 0, left alignment, all switches off |
| A11ySlice.A11yStore.CycleContrast | src/store/a11ySlice.js:33-36 | only the contrast level changes, to its cycle of 4, and the settings stay in range |
| A11ySlice.A11yStore.CycleTextSize | src/store/a11ySlice.js:37-40 | only the text size changes, to its cycle of 3, and the settings stay in range |
| A11ySlice.A11yStore.CycleTextSpacing | src/store/a11ySlice.js:41-44 | only the text spacing changes, to its cycle of 3, and the settings stay in range |
| A11ySlice.A11yStore.CycleLineHeight | src/store/a11ySlice.js:45-48 | only the line height changes, to its cycle of 3, and the settings stay in range |
| A11ySlice.A11yStore.CycleTextAlign | src/store/a11ySlice.js:49-54 | only the alignment changes, to the next one, and the settings stay in range |
| A11ySlice.A11yStore.ToggleScreenReader | src/store/a11ySlice.js:56-59 | the settings become the screen-reader flip of the old ones |
| A11ySlice.A11yStore.ToggleSmartContrast | src/store/a11ySlice.js:60-63 | the settings become the smart-contrast flip of the old ones |
| A11ySlice.A11yStore.ToggleHighlightLinks | src/store/a11ySlice.js:64-67 | the settings become the link-highlight flip of the old ones |
| A11ySlice.A11yStore.ToggleCursorHighlight | src/store/a11ySlice.js:68-71 | the settings become the cursor-highlight flip of the old ones |
| A11ySlice.A11yStore.ResetAll | src/store/a11ySlice.js:73-76 | the settings are the initial ones again |
| A11ySlice.A11yStore.SetAllA11y | src/store/a11ySlice.js:78-80 | the settings become the payload merged over the old ones |
| A11ySlice.A11yStore.LoadA11y | src/store/a11ySlice.js:82-84 | the settings become the payload merged over the old ones |
| AuthSlice.InitialAuth | src/store/authSlice.js:3-8 | nobody signed in, no token, and loading iff a non-empty refresh token is stored |
| AuthSlice.LoggedIn | src/store/authSlice.js:14-21 | the given user and access token, authenticated, not loading |
| AuthSlice.Refreshed | src/store/authSlice.js:31-34 | the new access token and not loading; user and authentication are unchanged |
| AuthSlice.InitFailed | src/store/authSlice.js:35-38 | loading ends; user, token and authentication are unchanged |
| AuthSlice.LoginThenLogout | src/store/authSlice.js:14-29 | after signing in and out the storage is the original one without the refresh token, and the slice equals what a reload with it gives |
| AuthSlice.StorageDecidesReload | src/store/authSlice.js:7-28 | a stored refresh token makes the next reload load iff it is non-empty; a removed one never does |
| AuthSlice.RefreshOverwrites | src/store/authSlice.js:31-38 | of two refreshes only the second token remains, and a second init failure changes nothing |
| AuthSlice.AuthStore.constructor | src/store/authSlice.js:3-8 | the initial state for the stored tokens, with that storage |
| AuthSlice.AuthStore.LoginSuccess | src/store/authSlice.js:14-21 | the slice becomes LoggedIn of the old one and the storage holds the new refresh token |
| AuthSlice.AuthStore.Logout | src/store/authSlice.js:22-29 | the slice is signed out and the refresh token is removed from the storage |
| AuthSlice.AuthStore.TokenRefresh | src/store/authSlice.js:31-34 | the slice becomes Refreshed of the old one; the storage is unchanged |
| AuthSlice.AuthStore.InitFailure | src/store/authSlice.js:35-38 | the slice becomes InitFailed of the old one and the refresh token is removed |
| AuthSlice.LogoutIdempotent | src/store/authSlice.js:22-29 | logging out twice leaves the same slice and storage as logging out once |
| NeedAuth.BeforeLoad | src/routes/_need-auth.jsx:6-19 | while the session is loading it neither redirects nor blocks (the returned element is route context, not rendered); otherwise a missing user or no authentication redirects to /login with the current address and 'login_required', and only an authenticated user with a user record passes |
| NeedAuth.LoginOpensTheGuard | src/routes/_need-auth.jsx:6-19 | right after a sign-in the guard passes iff the sign-in carried a user |
| NeedAuth.SignedOutIsRedirected | src/routes/_need-auth.jsx:9-18 | the signed-out state is redirected; a reload without a refresh token is redirected and one with a token passes without a redirect while loading |
| NeedAuth.OpenWhileRestoring | src/routes/_need-auth.jsx:7-10 | right after a reload with a stored refresh token nobody is authenticated and there is no user, yet the guard throws no redirect |
| NeedAuth.InitFailureRedirects | src/routes/_need-auth.jsx:9-18 | after a failed session restore the guard redirects |
| AdminLayout.AdminGuard | src/routes/_need-auth/_admin/admin.jsx:26-32 | no redirect iff a user is signed in with the admin role; otherwise to /unauthorized |
| AdminLayout.FindByPath | src/routes/_need-auth/_admin/admin.jsx:48 | `find`: the first menu item with exactly that path, none iff no item has it |
| AdminLayout.GetPathLabel | src/routes/_need-auth/_admin/admin.jsx:47-51 | '' iff no menu item has the path, otherwise that item's label |
| AdminLayout.MenuPathsDistinct | src/routes/_need-auth/_admin/admin.jsx:36-44 | the seven menu paths are distinct, their labels distinct and non-empty |
| AdminLayout.ActiveItemIsLabelled | src/routes/_need-auth/_admin/admin.jsx:47-75 | at most one item is active, and an item is active iff the page title is its label |
| AdminLayout.PrefixIsNotActive | src/routes/_need-auth/_admin/admin.jsx:75 | a longer path such as a sub-page never marks its parent's item active |
| SellerLayout.SellerGuard | src/routes/_need-auth/_seller/seller.tsx:14-20 | redirect to /unauthorized iff a loaded profile's role is not seller; no redirect while the profile is missing |
| SellerLayout.GuardsOnMissingAndLoadedUsers | src/routes/_need-auth/_seller/seller.tsx:14-20 | with no user the admin layout redirects while the seller layout does not; a loaded user is turned away by at least one of them |
| ImageUrl.GetImageUrl | src/components/main/popular-ranking.jsx:33-38 | an address starting with 'http' as it is; anything else prefixed with the endpoint and '/' |
| ImageUrl.EndsWithPath | src/components/main/popular-ranking.jsx:33-38 | the resolved address always ends with the given path |
| ImageUrl.StartsWithExtends | src/components/main/popular-ranking.jsx:34 | text that starts with a prefix still starts with it after more is appended |
| ImageUrl.Idempotent | src/components/main/popular-ranking.jsx:33-38 | with an absolute endpoint, resolving an already resolved address changes nothing |
| ImageUrl.PrefixedNotAbsolute | src/components/main/popular-ranking.jsx:34-37 | a path prefixed with an endpoint that does not start with 'http' never starts with 'http' itself |
| ImageUrl.RelativeEndpointNotIdempotent | src/components/main/popular-ranking.jsx:33-38 | for every endpoint and path that do not start with 'http', a second resolution prefixes the endpoint again, giving endpoint/endpoint/path, so resolution is not idempotent |

## Left out

- Network calls: the API wrappers and react-query hooks are not part of this model; each call is an outcome parameter, and the wrappers' real return values (including calls to functions the wrappers do not define) are not modelled.
- Toasts, alerts, console output, focus moves and navigation are recorded as logs on the screen's class or left out where nothing reads them.
- Asynchronous interleaving: every handler runs as one sequential step, so stale closures (such as the first-error focus in the product registration submit reading the previous errors) are not modelled.
- Dates are integer timestamps and amounts are integers; locale number and date formatting is not modelled.
- Regular expressions are replaced by explicit predicates over characters; string lengths count Dafny characters, not UTF-16 code units.
- `toLowerCase` folds only ASCII capitals.
- The role constants module is not part of this model; roles are the symbolic values Admin, Seller and any other role.
- The local storage behind the auth slice is a plain map field of the store; the hooks that restore the session and the accessibility settings, and the accessibility storage wrapper, are not part of this model.
- The accessibility menu's profile presets depend on modules that are not part of this model.
- The join page uses `useEffect`, `authApi`, `JoinForm` and its steps without importing them; only its field rules, checks, token effect and submit are modelled, as if those names resolved as on the Kakao sign-up page.
- Presentational and mock-data screens (dashboards, cards, summary sections, the completion page, single-call forms) are not modelled.
- The object-store endpoint of image addresses comes from the build environment and is a parameter.
- OrderCard: a price or quantity of another JavaScript type (a numeric string, say) is not modelled; each is a number or missing.
- NeedAuth: what the router does with the element `beforeLoad` returns while loading (it is merged into the route context, not rendered) is router behaviour outside this model; the model records only that no redirect is thrown and the route loads.
- PaymentProcess: `Number(amount)` is not modelled; the amount is passed on as the raw text.
- ProductsRouteTsx: the page passes `filters` and `setFilters` to the filter panel, but the panel reads only `onFilterChange` and keeps its own selection, starting empty; so the adapted array is never read, and on this page every panel handler that reports calls an undefined `onFilterChange`. Panel interaction on the TypeScript page (and its `setFilters` adapter) is not modelled.
- ProductsRouteJsx.SortKey: when only some products carry `price`, the JavaScript comparator returns NaN for mixed pairs and the resulting order is engine-defined; the model reads a missing price as key 0.
- ProductRegistration.NumberOf: `Number` is modelled only on optionally negative runs of decimal digits; decimals, exponents, hexadecimal and surrounding white space are read as NaN.
- ProductsRouteTsx.SortedProducts and ProductsRouteJsx.SortProducts: the sort is an insertion sort by key, proved stable (equal keys keep their order), which is what a stable `Array.prototype.sort` with a key-difference comparator produces; the engine's own algorithm is not modelled.
- ProductFilterStore.Merge: a key given with the value `undefined` overwrites that filter in JavaScript; the model has no such value and treats the key as absent.
- A11ySlice.Merge: likewise, a payload key set to `undefined` is treated as absent, and payload keys outside the nine settings are dropped.
