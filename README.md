# Restaurant POS dashboard: a Dafny model of its page logic

This project models the logic of a React dashboard for restaurant staff. The
logic covers:

- tables and their areas;
- a table's shop cart, shown item by item or grouped;
- the payment page, where staff pick how many units of each product to charge;
- the kitchen board and its status transitions;
- the product picker that adds items to a cart;
- the menu, with category filter, search and pagination;
- the expense page: month filter, per-category statistics and delete confirmations;
- the registration form and its tenant slug;
- the API client's request interceptors;
- the route dispatch.

Each source file has one module:

| module | file |
|---|---|
| `Common` | `common.dfy`: JavaScript string and array helpers |
| `Payment` | `payment.dfy` |
| `ShopCart` | `shopcart.dfy` |
| `Kitchen` | `kitchen.dfy` |
| `AddProductModal` | `add_product_modal.dfy` |
| `Tables` | `tables.dfy` |
| `Menu` | `menu.dfy` |
| `Expense` | `expense.dfy` |
| `Register` | `register.dfy` |
| `Client` | `client.dfy` |
| `ImageHelper` | `image_helper.dfy` |
| `App` | `app.dfy` |

The model follows the code's form:

- Derived values and pure helpers are functions. Their meaning is stated on
  the input list: what is kept, in what order, and with what totals.
- React state that handlers update becomes a class. Its fields are the state
  variables, and each handler is a method whose new state is given by a
  specification function. `PaymentPage`, `KitchenPage`, `ProductPicker`,
  `ExpensePage` and `ApiClient` are such classes.
- Loops in the source are methods with loop invariants. These are the
  payment grouping, the cart grouping, the kitchen tally, the visible months,
  the category statistics and the collection of item ids.

Modelling choices:

- Money is an integer count of minor units.
- JavaScript `%` and `slice` are written out with their truncating and
  clamping rules.
- `toLowerCase` is modelled for ASCII, the Turkish capitals Ğ Ü Ş Ö Ç, and
  U+0130 (capital I with dot), which lowers to "i" followed by U+0307.
- A user's choice between "all" and one id is the datatype `IdChoice`.
- `Object.values` over integer keys lists them in ascending order. The
  payment groups are therefore kept sorted by product id.
- A `Map` keeps insertion order. The cart's grouped rows therefore follow
  first occurrence.
- A sort that compares counts is stable. The kitchen summary is therefore a
  stable insertion sort by descending count.

## Model

| member | source | states |
|---|---|---|
| Payment.GroupUnpaidItems | src/pages/Payment.jsx:68-104 | The groups are exactly the grouping of the unpaid items, one per product, ascending by product id. Each group's unit count is the number of unpaid units, and its ids are theirs in cart order. Its notes are the distinct non-empty notes. Nothing is selected. |
| Payment.AddItem | src/pages/Payment.jsx:74-96 | One step of the forEach. A paid item changes nothing. An existing product's group gains the unit. A new product gets a fresh group at its ascending place. |
| Payment.Locate | src/pages/Payment.jsx:100 | The position of a product among groups sorted by product id. |
| Payment.StepExisting | src/pages/Payment.jsx:77-83 | An unpaid unit of a product already grouped keeps the grouping correct for the longer item list. |
| Payment.StepNew | src/pages/Payment.jsx:84-95 | A fresh group for a new product, inserted at its ascending place, keeps the grouping correct. |
| Payment.StepPaid | src/pages/Payment.jsx:73 | A paid item leaves the grouping unchanged. |
| Payment.UnpaidOfSound | src/pages/Payment.jsx:72-75 | A group only holds unpaid units of its own product. |
| Payment.UnpaidOfNonEmpty | src/pages/Payment.jsx:72-85 | A product has a group iff it has an unpaid unit. |
| Payment.DistinctNotesUnique | src/pages/Payment.jsx:81-82 | A group's notes are non-empty and pairwise distinct. |
| Payment.FreshGroupShape | src/pages/Payment.jsx:85-95 | A fresh group starts unselected, and its maximum equals the number of its ids. Every id in it is an unpaid item's id. |
| Payment.Increase | src/pages/Payment.jsx:175-182 | Only the named product's row changes. It gains one unit exactly when it is below its maximum. Selections within bounds stay within bounds. |
| Payment.Decrease | src/pages/Payment.jsx:185-192 | Only the named product's row changes. It loses one unit exactly when it is above zero. Bounds are kept. |
| Payment.ToggleAll | src/pages/Payment.jsx:195-212 | If every row is at its maximum, all rows are cleared. Otherwise every row is set to its maximum. |
| Payment.ToggleItem | src/pages/Payment.jsx:215-224 | The named row goes from full to zero, or from anything else to full. Other rows are untouched. |
| Payment.DecreaseUndoesIncrease | src/pages/Payment.jsx:175-192 | Decrease undoes an Increase that took effect. |
| Payment.IncreaseUndoesDecrease | src/pages/Payment.jsx:175-192 | Increase undoes a Decrease that took effect. |
| Payment.ToggleAllTwice | src/pages/Payment.jsx:195-212 | Toggling twice from a partial selection clears it. Toggling twice from a full selection restores it, as long as some row can be selected. |
| Payment.SelectedCarryEverything | src/pages/Payment.jsx:227-228 | Dropping unselected rows changes neither the total nor the number of selected units. |
| Payment.IncreaseAddsUnitPrice | src/pages/Payment.jsx:175-182 | An effective Increase raises the total by exactly the product's unit price. |
| Payment.ExampleTotal | src/pages/Payment.jsx:228 | Two rows, 2×10 and 1×20, total 40. |
| Payment.FlattenShape | src/pages/Payment.jsx:130-135 | The collected ids number the selected units, and each belongs to a selected group. |
| Payment.GroupIdsUnpaid | src/pages/Payment.jsx:93 | Every id held by a correct grouping is an unpaid item's id. |
| Payment.CollectIds | src/pages/Payment.jsx:130-135 | The forEach concatenates, in row order, each selected row's first selected-quantity ids. |
| Payment.PaymentProperties | src/pages/Payment.jsx:124-140 | For a correct, bounded grouping, a non-empty selection has a positive count, and the ids to charge number exactly the selected units. Every id to charge is an unpaid item's. |
| Payment.PaymentPage.constructor | src/pages/Payment.jsx:68-106 | The page opens on the grouping of the loaded items with nothing selected. |
| Payment.PaymentPage.IncreaseQuantity | src/pages/Payment.jsx:175-182 | The rows become Increase of the old rows. The page invariant is kept. |
| Payment.PaymentPage.DecreaseQuantity | src/pages/Payment.jsx:185-192 | The rows become Decrease of the old rows. The page invariant is kept. |
| Payment.PaymentPage.ToggleSelectAll | src/pages/Payment.jsx:195-212 | The rows become ToggleAll of the old rows. The page invariant is kept. |
| Payment.PaymentPage.ToggleItemSelection | src/pages/Payment.jsx:215-224 | The rows become ToggleItem of the old rows. The page invariant is kept. |
| Payment.PaymentPage.HandlePayment | src/pages/Payment.jsx:122-140 | There is no request iff no row is selected. Otherwise the request carries the flattened selected ids and the payment type. Their number is the positive count of selected units, and each is an unpaid item's id. |
| ShopCart.MapItems | src/pages/ShopCart.jsx:62-81 | One order line per backend item, with the same id, product, paid flag and price. The quantity is 1 and the total is the price. A missing or empty note becomes "". A missing kitchen status becomes "waiting", and a given one is kept. |
| ShopCart.RemainingIsUnpaidSum | src/pages/ShopCart.jsx:102-104 | The remaining amount (total minus paid) is the sum over the unpaid lines. |
| ShopCart.FilterOrders | src/pages/ShopCart.jsx:107-111 | "paid" keeps exactly the paid lines and "remaining" exactly the unpaid ones, in order. Any other filter keeps the whole list. |
| ShopCart.PaidRemainingPartition | src/pages/ShopCart.jsx:107-111 | The paid and remaining views together hold each line exactly once. |
| ShopCart.GroupOrders | src/pages/ShopCart.jsx:120-150 | There is one row per (product, paid) key. Each row's quantity, total, notes and original ids are those of its members, and the quantities add up to the line count. |
| ShopCart.StepExisting | src/pages/ShopCart.jsx:125-137 | A line whose key has a row keeps the grouping correct once added to that row. |
| ShopCart.StepNew | src/pages/ShopCart.jsx:138-146 | A line with an unseen key keeps the grouping correct once appended as a new row. |
| ShopCart.ExistingRowGrows | src/pages/ShopCart.jsx:126-137 | Adding a member to its row yields that key's row for the longer list. |
| ShopCart.RowMembers | src/pages/ShopCart.jsx:123-144 | A row's members share its product and paid flag, and its original ids are their ids in order. |
| ShopCart.MembersNonEmpty | src/pages/ShopCart.jsx:123 | A key has members iff some line has that key. |
| ShopCart.MembersSound | src/pages/ShopCart.jsx:123 | Every member of a key is a line with that key. |
| ShopCart.DisplayOrders | src/pages/ShopCart.jsx:114-152 | Individual mode shows the filtered lines unchanged. Any other mode shows their grouping. |
| Kitchen.StartPreparing | src/pages/Kitchen.jsx:103-112 | Orders with the id become preparing and the rest are unchanged. The new-order count drops by one and the in-progress count rises by one. |
| Kitchen.MarkReady | src/pages/Kitchen.jsx:114-122 | Orders with the id become ready, completed, with time "00:00". The in-progress count drops by one. |
| Kitchen.MarkServed | src/pages/Kitchen.jsx:124-126 | Every order with the id leaves the board. Every copy of each other order stays, in order, and the counters are unchanged. |
| Kitchen.FirstIndex | src/pages/Kitchen.jsx:129 | The position of the first order with the id, or the length when there is none. |
| Kitchen.UndoStatus | src/pages/Kitchen.jsx:128-140 | An unknown id throws. If the first order with the id is preparing, every order with the id returns to new and the counters move back. Otherwise nothing changes. |
| Kitchen.StartThenUndo | src/pages/Kitchen.jsx:103-140 | Undo reverses StartPreparing on a present order that is new. |
| Kitchen.OrdersByStatus | src/pages/Kitchen.jsx:142-144 | Exactly the orders with that status, in board order. |
| Kitchen.ColumnsPartition | src/pages/Kitchen.jsx:142-144 | The new, preparing and ready columns together hold each order once. |
| Kitchen.CountName | src/pages/Kitchen.jsx:152-156 | Counting one more item name keeps the tally exact. |
| Kitchen.CountItems | src/pages/Kitchen.jsx:151-157 | The inner forEach extends the tally by an order's item names. |
| Kitchen.InsertByCount | src/pages/Kitchen.jsx:160 | Inserting into a descending tally keeps it descending with the same elements. |
| Kitchen.SortByCount | src/pages/Kitchen.jsx:160 | The sort yields a tally descending by count. |
| Kitchen.SortByCountMultiset | src/pages/Kitchen.jsx:160 | The sort is a permutation of the entries. |
| Kitchen.SortByCountSum | src/pages/Kitchen.jsx:160-163 | The sort keeps the sum of counts. |
| Kitchen.SortByCountNames | src/pages/Kitchen.jsx:160 | The sort keeps the set of names and their distinctness. |
| Kitchen.SortedTally | src/pages/Kitchen.jsx:147-160 | A sorted exact tally is still an exact tally. |
| Kitchen.PendingNamesCount | src/pages/Kitchen.jsx:149-151 | The names counted are as many as the items of non-ready orders. |
| Kitchen.PendingProductsSummary | src/pages/Kitchen.jsx:147-161 | One entry per distinct item name of a non-ready order, with its exact number of occurrences, descending by count. |
| Kitchen.TotalPendingProducts | src/pages/Kitchen.jsx:163 | The sum of the summary's counts is the number of items in non-ready orders. |
| Kitchen.KitchenPage.constructor | src/pages/Kitchen.jsx:5-10 | The board opens on the given orders with counters 12 new, 5 in progress and wait "14:20". |
| Kitchen.KitchenPage.HandleStartPreparing | src/pages/Kitchen.jsx:103-112 | The board becomes StartPreparing of the old board. |
| Kitchen.KitchenPage.HandleMarkReady | src/pages/Kitchen.jsx:114-122 | The board becomes MarkReady of the old board. |
| Kitchen.KitchenPage.HandleMarkServed | src/pages/Kitchen.jsx:124-126 | The board becomes MarkServed of the old board. |
| Kitchen.KitchenPage.HandleUndoStatus | src/pages/Kitchen.jsx:128-140 | The handler throws iff the id is unknown, and then the board is unchanged. Otherwise the board becomes UndoStatus of the old board. |
| AddProductModal.FilteredProducts | src/components/AddProductModal.jsx:53-57 | Exactly the active products in the chosen category whose lowered name contains the lowered search term, in order, each as many times as in the list. |
| AddProductModal.UnfilteredShowsActive | src/components/AddProductModal.jsx:53-57 | With "all" and an empty search, every active product is listed. |
| AddProductModal.Toggled | src/components/AddProductModal.jsx:59-66 | A selected product is removed and the others are kept in order. An unselected one is appended with an empty note. Membership flips. |
| AddProductModal.ToggleKeepsUnique | src/components/AddProductModal.jsx:59-66 | Toggling never selects a product twice. |
| AddProductModal.ToggleTwice | src/components/AddProductModal.jsx:59-66 | Selecting and then unselecting a product restores the selection. |
| AddProductModal.NoteUpdated | src/components/AddProductModal.jsx:68-72 | The entry with the product id gets the note, and every other entry and the order are unchanged. |
| AddProductModal.SubmitRequest | src/components/AddProductModal.jsx:74-90 | An empty selection sends nothing. Otherwise one item per selection, in order, goes to the table. An empty note is sent as absent. |
| AddProductModal.ProductPicker.constructor | src/components/AddProductModal.jsx:10-13 | The picker opens on "all" with no search, no selection and not loading. |
| AddProductModal.ProductPicker.ToggleProduct | src/components/AddProductModal.jsx:59-66 | The selection becomes Toggled of the old one. Nothing else changes. |
| AddProductModal.ProductPicker.UpdateNote | src/components/AddProductModal.jsx:68-72 | The selection becomes NoteUpdated of the old one. Nothing else changes. |
| AddProductModal.ProductPicker.HandleClose | src/components/AddProductModal.jsx:44-51 | While loading, nothing happens. Otherwise selection, search and category are reset and the modal closes. |
| AddProductModal.ProductPicker.HandleSubmit | src/components/AddProductModal.jsx:74-90 | The request is SubmitRequest of the selection. Loading starts iff a request is sent. |
| AddProductModal.ProductPicker.FinishSubmit | src/components/AddProductModal.jsx:92-106 | Loading ends. On success the picker is reset. On failure the selection stays. |
| Tables.AreaIndex | src/pages/Tables.jsx:72 | The position of the first area whose id is the table's area id, or the length. |
| Tables.WithAreaName | src/pages/Tables.jsx:71-94 | The table is occupied iff it has an active cart. The total is the cart's amount, or 0. The section is the name of the first area whose id matches. It is "Tanımlanmamış" when no area matches or that name is empty. |
| Tables.WithAreaNames | src/pages/Tables.jsx:103 | Each table is decorated in place. |
| Tables.Sections | src/pages/Tables.jsx:97-100 | "All" first, then one tab per area in order. |
| Tables.OccupiedCount | src/pages/Tables.jsx:106-107 | The occupied count is the number of tables with an active cart. It is at most the table count. |
| Tables.FilteredTables | src/pages/Tables.jsx:111-116 | Exactly the tables in the chosen section whose lowered name or section contains the lowered query, in order, each as many times as in the list. |
| Tables.UnfilteredListsAll | src/pages/Tables.jsx:111-116 | With "all" and an empty query, every table is listed. |
| Tables.TrimProperties | src/pages/Tables.jsx:579 | A trimmed name is empty iff the name is all whitespace. Otherwise it neither starts nor ends with whitespace. |
| Tables.AreaSubmission | src/pages/Tables.jsx:577-588 | An all-whitespace name is not saved. Any other name is saved trimmed. |
| Tables.DefaultForm | src/pages/Tables.jsx:430-433 | The form takes the table's name or "". Its area is the table's non-zero area, else the first area's non-zero id, else none. |
| ImageHelper.GetImageUrl | src/utils/imageHelper.js:17-30 | A missing or empty path gives the placeholder. An http(s) URL is kept. Anything else is put under the storage base. The result is always absolute. |
| ImageHelper.GetImageUrlIdempotent | src/utils/imageHelper.js:17-30 | Resolving a resolved URL changes nothing. |
| ImageHelper.FormatProductImages | src/utils/imageHelper.js:37-42 | Each product's image is resolved, and nothing else changes. |
| ImageHelper.FormatProductImagesIdempotent | src/utils/imageHelper.js:37-42 | Formatting twice is formatting once. |
| Menu.FormatProducts | src/pages/Menu.jsx:46-54 | One menu product per product, in order. It keeps id, name, price, category, description and status, and its image is the resolved, absolute URL. |
| Menu.FilteredProducts | src/pages/Menu.jsx:75-80 | Exactly the products in the category whose lowered name contains the lowered query, in order, each as many times as in the list. |
| Menu.CategoryCount | src/pages/Menu.jsx:88-91 | At most the product count. For "all", the product count. |
| Menu.CategoryCountIsListed | src/pages/Menu.jsx:75-91 | A category's badge count equals the number of products listed for it with an empty search. |
| Menu.TotalPages | src/pages/Menu.jsx:82 | The least page count whose pages of 5 hold every product. It is zero iff there are none. |
| Menu.CurrentProducts | src/pages/Menu.jsx:83-85 | At most 5 products. For a page in range, the non-empty slice of that page. |
| Menu.FirstPagesPrefix | src/pages/Menu.jsx:82-85 | The first k pages, concatenated, are the list's prefix. |
| Menu.PagesCoverList | src/pages/Menu.jsx:82-85 | All pages, concatenated, are the whole list. |
| Menu.RangeMatchesPage | src/pages/Menu.jsx:468 | The "from–to" caption lies within the list and counts the products shown. |
| Menu.PrevPage | src/pages/Menu.jsx:474 | Previous never goes below page 1. |
| Menu.NextPage | src/pages/Menu.jsx:504 | Next never goes beyond the last page. |
| Menu.NextThenPrev | src/pages/Menu.jsx:474-504 | From a page before the last, previous undoes next. |
| Menu.SelectCategory | src/pages/Menu.jsx:94-96 | Changing the category returns to page 1, which shows the first 5 matches. |
| Menu.SetQuery | src/pages/Menu.jsx:94-96 | Changing the search returns to page 1, which shows the first 5 matches. |
| Expense.MonthAt | src/pages/Expense.jsx:25-28 | The wrapped index lies in 0..11 and is congruent to the month plus the offset. |
| Expense.VisibleMonths | src/pages/Expense.jsx:22-32 | Five names, from two months back to two ahead, wrapping around the year, with the current month in the middle. |
| Expense.MonthIndex | src/pages/Expense.jsx:93 | indexOf: the name's position, or -1 exactly when it is not a month name. |
| Expense.MonthIndexOfName | src/pages/Expense.jsx:93 | indexOf finds each month at its own position. |
| Expense.FilteredExpenses | src/pages/Expense.jsx:92-106 | Exactly the dated expenses whose month and year are the selected month and the current year, in order, each as many times as in the list. |
| Expense.SelectedMonthShown | src/pages/Expense.jsx:92-106 | Choosing a month name shows exactly that month's expenses of the current year. |
| Expense.UnknownMonthShowsNothing | src/pages/Expense.jsx:92-106 | A selection that is not a month name (indexOf gives -1) shows no expense, since a payment date's month is always 0 to 11. |
| Expense.CategoryAmountBounded | src/pages/Expense.jsx:113-117 | A category's amount plus the other categories' amount is the month's total. With no negative amounts, the category's amount lies between 0 and the total. |
| Expense.NegativeRefundExceedsTotal | src/pages/Expense.jsx:113-124 | A negative amount can push a category above the month's total. Amounts 100 and -50 give the first category a 200 percent share. |
| Expense.StatMeaning | src/pages/Expense.jsx:116-125 | A stat counts and sums its category's expenses. Its percentage is 0 unless the total is positive. Otherwise it is the amount times 100 over the total. With no negative amounts, it lies in 0..100. |
| Expense.CategoryStats | src/pages/Expense.jsx:111-129 | One stat per category id, each that category's StatFor. |
| Expense.DeleteCategoryRequest | src/pages/Expense.jsx:228-244 | A category with expenses is refused. Otherwise confirmation of its deletion is asked. |
| Expense.RemoveExpense | src/pages/Expense.jsx:252 | Exactly the expenses with another id, in order, with every copy kept. |
| Expense.RemoveCategory | src/pages/Expense.jsx:261 | Exactly the categories with another id, in order, with every copy kept. |
| Expense.ColorForCategory | src/pages/Expense.jsx:273-277 | Ids from 1 cycle through the eight colours. Below 1, a colour exists only where the truncated remainder is zero. |
| Expense.ColorCycle | src/pages/Expense.jsx:273-277 | The colour repeats every 8 ids, and ids 1..8 get distinct colours. |
| Expense.FieldChanged | src/pages/Expense.jsx:135-146 | The field takes the value. That field's error is dropped and every other error is kept. |
| Expense.ExpensePage.constructor | src/pages/Expense.jsx:40-61 | Empty forms, no errors, no pending confirmation. |
| Expense.ExpensePage.HandleDeleteCategory | src/pages/Expense.jsx:228-244 | The request is refused iff some expense has the category. Otherwise confirmation is pending. Lists and forms are unchanged. |
| Expense.ExpensePage.HandleDeleteExpense | src/pages/Expense.jsx:218-226 | Confirmation of the expense's deletion is pending. Nothing else changes. |
| Expense.ExpensePage.HandleConfirmDelete | src/pages/Expense.jsx:246-270 | On success, the pending target is removed from its list. The confirmation is cleared either way. |
| Expense.ExpensePage.HandleCategoryChange | src/pages/Expense.jsx:135-146 | The category form and errors become FieldChanged. |
| Expense.ExpensePage.HandleExpenseChange | src/pages/Expense.jsx:173-184 | The expense form and errors become FieldChanged. |
| Register.TurkishFold | src/pages/Register.jsx:45-50 | ğ ü ş ı ö ç become g u s i o c. Slug characters are kept. |
| Register.Fold | src/pages/Register.jsx:45-50 | The replacements act character by character and keep the length. |
| Register.StripLeading | src/pages/Register.jsx:52 | A suffix that does not start with '-'. |
| Register.StripTrailing | src/pages/Register.jsx:52 | A prefix that does not end with '-'. |
| Register.CollapseShape | src/pages/Register.jsx:51 | After the collapse, only a-z, 0-9 and single dashes remain. |
| Register.StripDashesIsSlug | src/pages/Register.jsx:52 | Stripping dashes from such a string yields a well-formed slug. |
| Register.SlugIsWellFormed | src/pages/Register.jsx:42-53 | Every generated slug is lower-case letters, digits and single inner dashes. |
| Register.CollapseKeepsWord | src/pages/Register.jsx:51 | A run of slug characters is unchanged by the collapse. |
| Register.CollapseKeepsSlug | src/pages/Register.jsx:51 | A well-formed slug is unchanged by the collapse. |
| Register.LowerKeepsSlug | src/pages/Register.jsx:44 | Lower-casing leaves slug text unchanged. |
| Register.GenerateSlugIdempotent | src/pages/Register.jsx:42-53 | The slug of a slug is itself. |
| Register.TurkishWordSlug | src/pages/Register.jsx:42-53 | A word of a-z, 0-9 and Turkish lower-case letters gets a slug of the same length, namely its folding. |
| Register.DottedCapitalIBreaksSlug | src/pages/Register.jsx:44-51 | As written: a word starting with U+0130 gets a slug with a '-' after its "i". |
| Register.IstanbulSlug | src/pages/Register.jsx:42-53 | As written: "İstanbul" gives "i-stanbul". |
| Register.LowerForSlug | src/pages/Register.jsx:44 | The corrected lower-casing keeps the length. |
| Register.CorrectedSlugKeepsWords | src/pages/Register.jsx:42-53 | Corrected: a word of letters (Turkish ones included) and digits gets a slug of its own length, free of dashes. |
| Register.CorrectedAgreesWithoutDottedI | src/pages/Register.jsx:42-53 | Without U+0130, the corrected slug equals the original. |
| Register.HandleRegister | src/pages/Register.jsx:55-85 | The checks run in order: mismatch, then password length under 6, then terms. A request is sent iff all pass. It carries the form's fields and generateSlug of the business name as written, which is a well-formed slug. |
| Register.RegisterSlugWithoutDottedI | src/pages/Register.jsx:83 | For a business name without U+0130, the slug sent equals the corrected slug. |
| Register.HandleChange | src/pages/Register.jsx:20-40 | The checkbox sets acceptTerms and a text input sets its own field. Every other field keeps its value, and the errors become ClearErrors. |
| Register.ClearErrors | src/pages/Register.jsx:27-39 | The edited field's error is cleared. A business-name edit also clears the slug errors. Nothing else changes. |
| Client.RequestKey | src/api/client.js:17-19 | The key is the method and url, then ':', then the params text or "{}". |
| Client.Authorize | src/api/client.js:24-28 | A truthy token sets "Bearer <token>". Otherwise the headers are unchanged. Other headers are kept. |
| Client.AfterRequest | src/api/client.js:33-46 | A pending key is left as it is. A new key is recorded with its request. |
| Client.AfterResponse | src/api/client.js:62-64 | The response's key is removed and every other entry stays. |
| Client.Classify | src/api/client.js:81-105 | A cancellation passes through. A 422 becomes a validation failure with the server's errors, and throws without a body. Anything else carries the server message when it is truthy and otherwise exactly the generic 'Bir hata oluştu', plus the status when there was a response. |
| Client.AfterErrorAsWritten | src/api/client.js:75-79 | As written: any error with a config removes its key, every other entry stays, and no key is added. |
| Client.AfterErrorKeepsOwners | src/api/client.js:75-79 | Corrected: an entry stays iff the error does not come from its owner, and the owner's error removes it. |
| Client.DuplicateReopensKey | src/api/client.js:37-79 | As written: a duplicate's cancellation removes the original's entry, so a third identical request is sent. |
| Client.DuplicateStaysDropped | src/api/client.js:37-79 | Corrected: the entry survives the duplicate's cancellation, so a third identical request is aborted. |
| Client.ApiClient.constructor | src/api/client.js:14 | The pending table starts empty. |
| Client.ApiClient.OnRequest | src/api/client.js:22-49 | The request is aborted iff its key is pending. The headers are authorized and the table becomes AfterRequest. |
| Client.ApiClient.OnResponse | src/api/client.js:57-66 | The table becomes AfterResponse. |
| Client.ApiClient.OnError | src/api/client.js:68-106 | The table becomes AfterErrorAsWritten: the failed request's key is deleted, whoever recorded it. A non-cancelled 401 clears the token and goes to /login. The rejection is Classify. |
| App.PaymentMatchIsTwoSegments | src/App.jsx:37-40 | The payment pattern matches exactly "/tables/" plus two non-empty slash-free segments. |
| App.RenderPage | src/App.jsx:35-67 | The payment path shows payment. Any other path under "/tables/" shows the cart. Exact paths show their page, and everything else shows the dashboard. |
| App.ExactPaths | src/App.jsx:47-66 | Each page's own path renders it. |
| App.TablesExamples | src/App.jsx:37-45 | "/tables/5" is a cart, "/tables/5/12" is a payment, and "/tables/5/12/" is a cart. |

## Left out

- Floating point: prices, amounts and totals are integers. `parseFloat`, `toFixed(1)` and their rounding are not modelled, and a percentage is an exact real. A `NaN` amount from unparsable text is not modelled.
- Expense.CategoryAmountBounded, Expense.StatMeaning: amounts may be negative, because the form sets no minimum. The bound "at most the total" and the 0..100 share are proved only when no amount is negative. Expense.NegativeRefundExceedsTotal shows that they fail otherwise.
- Dates and the clock: the current month and year are parameters, and an expense's payment date is a given (month, year). Table open durations and request timings are not modelled.
- Network, `async` and interleaving: each request's outcome is a parameter, and handlers run one at a time.
- Rendering, toasts, alerts, modals and navigation are not modelled, except where a handler's outcome depends on them.
- The HTTP wrapper modules (`api/*.js` other than `client.js`) and `api/config.js` are not part of this model.
- Client.RequestKey: `JSON.stringify(params)` is taken as a given text.
- Client.ApiClient.OnRequest: the console logs and the AbortController object are not modelled.
- Unicode: strings are sequences of code points, not UTF-16 units. `toLowerCase` covers ASCII, the Turkish capitals and U+0130. Other non-ASCII capitals are left unchanged.
- Expense.CategoryStats: the stats are a map keyed by category id. The order `Object.values` gives them is not modelled.
- Kitchen.PendingProductsSummary: `Object.entries` lists integer-like names first. Names are assumed not to be integer-like, so the tally keeps first-occurrence order before the stable sort.
- ShopCart.GroupOrders: it states the rows' content and keys, but not their first-occurrence order.
- Kitchen.UndoStatus: the source crashes on an unknown id (`order.status` on `undefined`). The model returns None, and the page handler reports it as thrown without changing the board.
- Kitchen.KitchenPage.constructor: the sample orders are a parameter.
- AddProductModal.FilteredProducts: `parseInt` of the category value is replaced by the chosen id.
- AddProductModal.ProductPicker.FinishSubmit: the success path calls `handleClose` from the submit's closure, where `loading` is still false. The model therefore always resets on success.
- Register.HandleRegister: the password length counts code points, not UTF-16 units.
- Payment.PaymentPage.HandlePayment: the "no item ids" alert cannot occur for a bounded, correct grouping, and the payment request and its response are not modelled.
- Payment: product names, descriptions and images on the payment rows are not modelled.
- Tables: the open duration of a table and the create/update/delete requests are not modelled.

## Findings

The page handlers (`Register.HandleRegister`, `Client.ApiClient.OnError`) keep the behaviour as written. The corrected definitions (`Register.GenerateSlugCorrected`, `Client.AfterError`) stand beside them, with the intended properties proved.

| source | as written | input that shows it | evidently intended | confidence | as-written member | corrected member |
|---|---|---|---|---|---|---|
| src/pages/Register.jsx:44-51 | `toLowerCase` turns "İ" into "i" plus U+0307. The combining dot is not a slug character, so it becomes '-'. | business name "İstanbul" gives slug "i-stanbul" | "istanbul": the dotted capital should fold to a plain "i", as the other Turkish letters are folded | not executed | Register.DottedCapitalIBreaksSlug | Register.CorrectedSlugKeepsWords |
| src/api/client.js:37-79 | The error handler deletes the pending key of any failed request, including the aborted duplicate of a request still in flight. | send a GET to /tables, send it again while pending (aborted), then send a third: the third is sent | the entry belongs to the request that recorded it, so the third duplicate is aborted too | not executed | Client.DuplicateReopensKey | Client.DuplicateStaysDropped |
