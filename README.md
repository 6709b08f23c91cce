# WealthWise web client: a Dafny model of its request and list logic

WealthWise is a personal-finance web client. Its pages fetch transactions
and recurring transactions from a REST backend, and every request passes
through an interceptor that attaches the identity session's bearer token.
This project models the client's small pieces of real logic and proves
properties about them:

- **Search-query builder** (`SearchQuery`). `buildSearchQuery` merges the
  filter object with `page`, `size`, `sortBy: "amount"` and
  `direction: "desc"`. It then deletes, in place, every key whose value is
  `''`, `null` or `undefined`. `RequestFor` is the fetch effect's choice:
  list mode sends `{page, size}` to the list endpoint, search mode sends the
  built query to the search endpoint.
- **List reconciliation** (`Reconcile`). After an edit, rows are replaced by
  id. After a delete, rows are removed by id.
- **Transaction list page** (`Transactions.TransactionPage`). This is a class
  with the page's state: `page`, `size`, `totalPages`, `filters`,
  `isSearchMode`, `transactions`, and the toasts it has shown. Its handlers
  cover fetch results, create (append), edit, delete, search, reset,
  page-size change, Previous/Next, the filter fields, the type toggle and
  the date picker.
- **Recurring-transaction list page**
  (`RecurringTransactions.RecurringTransactionPage`). It has the same state.
  Create prepends the new row. The checkbox-aware `handleInputChange`
  becomes `ApplyInput`. Reset restores `DEFAULT_FILTERS`.
- **Request gateway** (`Gateway`). The interceptor cancels the request with
  "User not authenticated" when there is no session. Otherwise it asks for a
  refresh with minimum validity 5 seconds. On success it sets
  `config.headers.Authorization` to `Bearer <token>` on the same config
  object. On refresh failure it cancels with "Token refresh failed".
- **Transaction detail page** (`TransactionDetail`). `SelectView` is the
  render chain. It shows the spinner, then the error, then the details.
  In the details, the receipt preview is PDF, image, info or warning, and
  download is enabled when there is a receipt URL. `DetailPage` holds the
  state that the two fetches fill in.

Network results, the identity library's refresh outcome and the object URL
created for a receipt blob are method parameters. `showToast` is modelled as
appending to a `toasts` sequence. JavaScript `null` and `undefined` are one
value, `Null`. Row ids are integers compared with `===`.

Where the code's behaviour is easy to misread, the model follows the code:

- The transaction page's Reset writes a filter object that has no
  `dateInput` key, although the initial object has one
  (`Transactions.ResetFilters`).
- The transaction page's type toggle stores a deselect as `null`. The
  recurring page stores `val || ''`.
- A failed receipt upload after a successful create takes the same path as
  a failed create. The new row is not appended, and a 409 from the upload
  shows the duplicate warning with the backend's message, or
  "Duplicate transaction." when it sends none.
- Refreshes are not serialized, and stale fetches are not discarded. The
  code has neither guard.

## Model

| member | source | states |
|---|---|---|
| SearchQuery.Paging | src/pages/Transaction.js:65-71 | the keys are exactly page, size, sortBy and direction, with the page and size given, "amount" and "desc" |
| SearchQuery.WithoutBlanks | src/pages/Transaction.js:73-75 | a key is kept if and only if its value is not blank, and a kept key keeps its value |
| SearchQuery.SearchParams | src/pages/Transaction.js:64-78 | the query holds no `''`/null value; it always holds page, size, sortBy="amount" and direction="desc" with page 0 kept; every non-blank filter that is not a paging key passes through unchanged (dateInput included); a non-paging key is in the query only if it comes from the filters |
| SearchQuery.BuildSearchQuery | src/pages/RecurringTransaction.js:62-72 | deleting blank keys in place while walking a snapshot of the keys yields exactly `SearchParams` |
| SearchQuery.SearchParamsIdempotent | src/pages/Transaction.js:73-75 | building a query from a built query changes nothing |
| SearchQuery.UpdateThenQuery | src/pages/Transaction.js:73-75 | setting one filter changes the query at that key only: a blank value removes the key, any other value is sent unchanged |
| SearchQuery.InvertedRangePassesThrough | src/pages/Transaction.js:65-75 | minAmount 100 with maxAmount 50 is sent as entered, with no range check |
| SearchQuery.RequestFor | src/pages/Transaction.js:84-92 | list mode sends exactly `{page, size}` to the list endpoint; search mode sends the built query to the search endpoint |
| SearchQuery.ListModeIgnoresFilters | src/pages/RecurringTransaction.js:78-86 | corollary of `RequestFor`'s list-mode clause: in list mode the filters have no influence on the request |
| Reconcile.ReplaceById | src/pages/Transaction.js:183 | edit keeps the length; every row with the edited id becomes the response; every other row is unchanged |
| Reconcile.ReplaceOnlyRow | src/pages/RecurringTransaction.js:111-115 | when one row has the id, the edit replaces that row alone, in its position |
| Reconcile.ReplacePreservesUniqueIds | src/pages/RecurringTransaction.js:113-115 | replacing with a response of the same id keeps ids unique |
| Reconcile.RemoveById | src/pages/Transaction.js:195 | no remaining row has the deleted id; the list does not grow |
| Reconcile.RemoveByIdMembers | src/pages/RecurringTransaction.js:127 | a row remains if and only if it was present and its id is not the deleted one |
| Reconcile.RemoveByIdConcat | src/pages/Transaction.js:195 | delete distributes over concatenation, so the remaining rows keep their order |
| Reconcile.RemoveAbsentId | src/pages/Transaction.js:195 | deleting an id no row has leaves the list unchanged |
| Reconcile.RemoveOnlyRow | src/pages/RecurringTransaction.js:127 | when one row has the id, deleting it removes exactly that row and keeps the others in order |
| Reconcile.RemovePreservesUniqueIds | src/pages/Transaction.js:195 | delete keeps ids unique |
| Json.IsBlank | src/pages/Transaction.js:74 | the `=== '' or == null` test (also RecurringTransaction.js:70); every blank value is falsy, and on strings blank and falsy coincide |
| Json.IsFalsy | src/pages/RecurringTransaction.js:198 | the falsiness `||` tests: the empty string, 0, false and null/undefined, and nothing else |
| Json.OrEmpty | src/pages/RecurringTransaction.js:198 | `val` or `''` is never null; a falsy value becomes `''` and anything else is kept |
| Api.BackendMessageOr | src/pages/Transaction.js:171 | the backend's message when non-empty, else the fallback |
| Api.CreationFailureToast | src/pages/Transaction.js:169-175 | a warning exactly for status 409, carrying the backend message or the fallback; any other failure gives "Failed to create transaction." as an error |
| Transactions.DateFilter | src/pages/Transaction.js:401-404 | empty exactly for an empty raw value; otherwise the raw value followed by "T00:00:00" |
| Transactions.WithDate | src/pages/Transaction.js:404 | dateInput becomes the raw value and date its `DateFilter` form; every other filter is kept |
| Transactions.DateFilterQuery | src/pages/Transaction.js:401-404 | a picked day is searched as date = raw + "T00:00:00" beside dateInput = raw; clearing the picker removes both from the query |
| Transactions.ResetFiltersQuery | src/pages/Transaction.js:433-445 | after Reset only the four paging keys reach a search query |
| Transactions.TransactionPage.constructor | src/pages/Transaction.js:47-60 | page 0, size 5, 0 pages, the eight empty filters, list mode, no rows |
| Transactions.TransactionPage.FetchRequest | src/pages/Transaction.js:84-92 | a search request exactly in search mode; list mode sends `{page, size}` of the current state; a search request carries no blank value |
| Transactions.TransactionPage.PreviousEnabled | src/pages/Transaction.js:530 | definition only: Previous is enabled off the first page (`disabled={page === 0}`) |
| Transactions.TransactionPage.NextEnabled | src/pages/Transaction.js:538 | definition only: Next is enabled while page+1 < totalPages |
| Transactions.TransactionPage.ApplyFetch | src/pages/Transaction.js:94-99 | success copies content and totalPages verbatim; failure keeps both and shows "Unable to load transactions." |
| Transactions.TransactionPage.AddTransaction | src/pages/Transaction.js:110-177 | recurring create never touches the list; plain create appends the created row only if the optional receipt upload succeeds; each outcome shows its toast; a 409 gives a warning defaulting to "Duplicate transaction." |
| Transactions.TransactionPage.EditTransaction | src/pages/Transaction.js:179-190 | success replaces by `transactionId`; failure leaves the list and shows the error |
| Transactions.TransactionPage.DeleteTransaction | src/pages/Transaction.js:192-202 | success removes by `transactionId`; failure leaves the list and shows the error |
| Transactions.TransactionPage.Search | src/pages/Transaction.js:422-425 | page 0 and search mode; the next fetch is the search request |
| Transactions.TransactionPage.Reset | src/pages/Transaction.js:433-445 | the seven listed filters empty, list mode, page 0; the next fetch is the list request for page 0 |
| Transactions.TransactionPage.ChangeSize | src/pages/Transaction.js:517-519 | the new size, and page 0 |
| Transactions.TransactionPage.ClickPrevious | src/pages/Transaction.js:529-531 | one page back (max(page-1, 0)); does nothing on page 0, where the button is disabled |
| Transactions.TransactionPage.ClickNext | src/pages/Transaction.js:537-539 | one page on; does nothing when page+1 >= totalPages |
| Transactions.TransactionPage.ChangeFilter | src/pages/Transaction.js:106-108 | field `name` set to the entered string; the other filters unchanged |
| Transactions.TransactionPage.ToggleTransactionType | src/pages/Transaction.js:383 | transactionType set to the toggle's value, null included |
| Transactions.TransactionPage.ChangeDate | src/pages/Transaction.js:401-404 | dateInput set to the raw value and date to its midnight form; the other filters unchanged |
| RecurringTransactions.ApplyInput | src/pages/RecurringTransaction.js:97-103 | field `name` becomes `checked` for a checkbox and `value` otherwise; every other field is kept |
| RecurringTransactions.ApplyInputLastWins | src/pages/RecurringTransaction.js:99-102 | two changes of one field: the later wins |
| RecurringTransactions.ApplyInputCommutes | src/pages/RecurringTransaction.js:99-102 | changes of two different fields commute |
| RecurringTransactions.ApplyInputQuery | src/pages/RecurringTransaction.js:70 | an emptied text filter leaves the query; an unticked checkbox is sent as false |
| RecurringTransactions.DefaultFiltersQuery | src/pages/RecurringTransaction.js:31-41 | with `DEFAULT_FILTERS` only the four paging keys reach a search query |
| RecurringTransactions.RecurringTransactionPage.constructor | src/pages/RecurringTransaction.js:47-56 | page 0, size 5, 0 pages, `DEFAULT_FILTERS`, list mode, no rows |
| RecurringTransactions.RecurringTransactionPage.FetchRequest | src/pages/RecurringTransaction.js:78-86 | a search request exactly in search mode; list mode sends `{page, size}` of the current state; a search request carries no blank value |
| RecurringTransactions.RecurringTransactionPage.PreviousEnabled | src/pages/RecurringTransaction.js:323 | definition only: Previous is enabled off the first page |
| RecurringTransactions.RecurringTransactionPage.NextEnabled | src/pages/RecurringTransaction.js:327 | definition only: Next is enabled while page+1 < totalPages |
| RecurringTransactions.RecurringTransactionPage.ApplyFetch | src/pages/RecurringTransaction.js:87-92 | success copies content and totalPages verbatim; failure keeps both and shows "Unable to load recurring transactions." |
| RecurringTransactions.RecurringTransactionPage.CreateTransaction | src/pages/RecurringTransaction.js:136-157 | success prepends the created row; a 409 leaves the list and warns with the backend message or "Duplicate transaction name." |
| RecurringTransactions.RecurringTransactionPage.EditTransaction | src/pages/RecurringTransaction.js:105-122 | success replaces by `recurringTransactionId`; failure leaves the list and shows "Update failed." |
| RecurringTransactions.RecurringTransactionPage.DeleteTransaction | src/pages/RecurringTransaction.js:124-134 | success removes by `recurringTransactionId`; failure leaves the list and shows "Deletion failed." |
| RecurringTransactions.RecurringTransactionPage.Search | src/pages/RecurringTransaction.js:242 | page 0 and search mode; the next fetch is the search request |
| RecurringTransactions.RecurringTransactionPage.Reset | src/pages/RecurringTransaction.js:245-249 | `DEFAULT_FILTERS` exactly, list mode, page 0 |
| RecurringTransactions.RecurringTransactionPage.ChangeSize | src/pages/RecurringTransaction.js:311-314 | the new size, and page 0 |
| RecurringTransactions.RecurringTransactionPage.ClickPrevious | src/pages/RecurringTransaction.js:323 | one page back; nothing on page 0 |
| RecurringTransactions.RecurringTransactionPage.ClickNext | src/pages/RecurringTransaction.js:327 | one page on; nothing when page+1 >= totalPages |
| RecurringTransactions.RecurringTransactionPage.ChangeFilter | src/pages/RecurringTransaction.js:172 | the filters updated by `ApplyInput` |
| RecurringTransactions.RecurringTransactionPage.ToggleTransactionType | src/pages/RecurringTransaction.js:198 | transactionType set to `val` or `''`, never null |
| Gateway.BearerHeader | src/api/axiosInstance.js:20 | "Bearer " followed by the token unaltered |
| Gateway.Decide | src/api/axiosInstance.js:12-26 | unauthenticated: cancel "User not authenticated"; authenticated with a failed refresh: cancel "Token refresh failed"; the header is attached if and only if the session is authenticated and the refresh succeeds |
| Gateway.UnauthenticatedNeverAttaches | src/api/axiosInstance.js:13-15 | corollary of `Decide`'s first clause: without a session no refresh outcome lets the request through |
| Gateway.RequestConfig.constructor | src/api/axiosInstance.js:12 | the `config` object the interceptor receives (a class, since the interceptor updates its headers in place): url, params and headers as given |
| Gateway.Intercept | src/api/axiosInstance.js:11-27 | refresh is requested with minimum validity 5 exactly when authenticated; on attach the same config object is returned and only `Authorization` is set; on cancel the headers are untouched |
| TransactionDetail.Includes | src/pages/TransactionDetail.js:137 | JavaScript `includes` (also at line 147): the empty string is included in every string, and an included string is no longer than the one containing it |
| TransactionDetail.IsSet | src/pages/TransactionDetail.js:137 | the truthiness of `receiptUrl` (also at line 165): set and not falsy as a string |
| TransactionDetail.IncludesAt | src/pages/TransactionDetail.js:137 | `includes` holds exactly when the substring occurs at some position |
| TransactionDetail.SelectView | src/pages/TransactionDetail.js:66-165 | the spinner whenever loading; then the error whenever set; PDF if and only if a URL is set and the type contains "pdf"; image if and only if there is no PDF and the type contains "image"; info with `receiptError` if and only if neither preview applies and it is set; otherwise the warning; download enabled if and only if a URL is set |
| TransactionDetail.ImagePreviewWithoutUrl | src/pages/TransactionDetail.js:147 | the image branch does not check the URL: an image type without a URL selects an image with no source |
| TransactionDetail.PdfBeforeImage | src/pages/TransactionDetail.js:137-147 | a type mentioning both pdf and image, with a URL, shows the PDF |
| TransactionDetail.DetailPage.constructor | src/pages/TransactionDetail.js:20-25 | loading, no transaction, no error, no receipt |
| TransactionDetail.DetailPage.CurrentView | src/pages/TransactionDetail.js:66-85 | the spinner exactly while loading; the details are shown only when the transaction is present |
| TransactionDetail.DetailPage.FinishTransactionFetch | src/pages/TransactionDetail.js:28-37 | loading ends on success and on failure; a failure sets "Failed to load transaction."; the spinner is gone |
| TransactionDetail.DetailPage.FinishReceiptFetch | src/pages/TransactionDetail.js:39-54 | success stores the content type and the object URL; failure sets "No receipt found for this transaction." |

## Left out

- JSX/MUI rendering, dialogs and their open flags, layout and breakpoints: presentation.
- Form state of the add and edit dialogs (`newTransaction`, `editTransaction`, `recurringFields`, the "Is Recurring?" switch, the chosen receipt file) and its reset after a create. The handlers take the values they read from it as parameters.
- Payload construction, including `parseFloat` of the amount (floating point), and the multipart receipt upload body. Only the outcome of each call is modelled.
- The HTTP calls and endpoint URLs. Each response is an input: success data, or an error with an optional status and message.
- When the fetch effects run (React dependency lists), async ordering, stale-response races and refresh serialization: concurrency. The code guards against none of these.
- The identity library: `init`, `updateToken`'s own logic, token parsing, logout. Only the authenticated flag and the refresh outcome reach the model.
- The interceptor's error half, which passes a request error on unchanged: it holds no logic.
- `console` logging.
- TransactionDetail: `window.open` for download, back navigation, and `URL.createObjectURL`. The object URL is an input.
- TransactionDetail: a receipt response without a content-type header. Then `receiptType` becomes `undefined` and `.includes` throws during render; the model's content type is always a string.
- `parseInt` in the Rows selector: the menu offers only 5, 10 and 25, so the new size is taken directly as a number.
- The distinction between `null` and `undefined`, and non-integer numbers: filter values are strings in the source.
- src/pages/Dashboard.js, src/components/Layout.js, src/App.js, src/index.js, src/KeycloakProvider.js: charts, toast rendering, routing and bootstrapping.
