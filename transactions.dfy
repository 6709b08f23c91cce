/** The state and the handlers of the transaction list page. */
module Transactions {
  import opened Json
  import opened Api
  import opened SearchQuery
  import opened Reconcile

  const DefaultSize: nat := 5

  /** The filter object the page starts with: every field empty. */
  const InitialFilters: Fields := map[
    "transactionName" := Str(""), "minAmount" := Str(""), "maxAmount" := Str(""),
    "category" := Str(""), "paymentType" := Str(""), "transactionType" := Str(""),
    "date" := Str(""), "dateInput" := Str("")]

  /** The filter object Reset writes. Unlike the initial one it has no
      `dateInput` key. */
  const ResetFilters: Fields := map[
    "transactionName" := Str(""), "minAmount" := Str(""), "maxAmount" := Str(""),
    "category" := Str(""), "paymentType" := Str(""), "transactionType" := Str(""),
    "date" := Str("")]

  const DuplicateFallback := "Duplicate transaction."
  const DateSuffix := "T00:00:00"

  /** The `date` filter derived from the date picker's raw `yyyy-mm-dd` value. */
  function DateFilter(raw: string): (d: string)
    ensures raw == "" <==> d == ""
    ensures raw != "" ==> |d| == |raw| + |DateSuffix| && d[..|raw|] == raw && d[|raw|..] == DateSuffix
  {
    if raw == "" then "" else raw + DateSuffix
  }

  /** The filters after the date picker reports `raw`. */
  function WithDate(filters: Fields, raw: string): (f: Fields)
    ensures f.Keys == filters.Keys + {"dateInput", "date"}
    ensures f["dateInput"] == Str(raw) && f["date"] == Str(DateFilter(raw))
    ensures forall k :: k in filters && k != "dateInput" && k != "date" ==> f[k] == filters[k]
  {
    filters["dateInput" := Str(raw)]["date" := Str(DateFilter(raw))]
  }

  /** A picked day is searched from its midnight, and the raw value is sent
      beside it; clearing the picker removes both keys from the query. */
  lemma DateFilterQuery(filters: Fields, raw: string, page: nat, size: nat)
    ensures var q := SearchParams(WithDate(filters, raw), page, size);
      && (raw == "" ==> "date" !in q && "dateInput" !in q)
      && (raw != "" ==>
            "date" in q && q["date"] == Str(raw + DateSuffix) && "dateInput" in q && q["dateInput"] == Str(raw))
  {
    UpdateThenQuery(filters["dateInput" := Str(raw)], "date", Str(DateFilter(raw)), page, size);
    UpdateThenQuery(filters, "dateInput", Str(raw), page, size);
  }

  /** After Reset no filter reaches the query: only the paging keys are sent. */
  lemma ResetFiltersQuery(page: nat, size: nat)
    ensures SearchParams(ResetFilters, page, size).Keys == {"page", "size", "sortBy", "direction"}
  {
    var q := SearchParams(ResetFilters, page, size);
    assert forall k :: k in ResetFilters ==> IsBlank(ResetFilters[k]);
    assert q.Keys <= {"page", "size", "sortBy", "direction"};
  }

  class TransactionPage {
    var page: nat
    var size: nat
    var totalPages: int
    var filters: Fields
    var isSearchMode: bool
    var transactions: seq<Row>
    /** Every notification shown so far, oldest first. */
    var toasts: seq<Toast>

    constructor ()
      ensures page == 0 && size == DefaultSize && totalPages == 0
      ensures filters == InitialFilters && !isSearchMode
      ensures transactions == [] && toasts == []
    {
      page, size, totalPages := 0, DefaultSize, 0;
      filters, isSearchMode := InitialFilters, false;
      transactions, toasts := [], [];
    }

    /** The request the fetch effect issues in the current state. */
    function FetchRequest(): (r: Request)
      reads this
      ensures r.SearchRequest? <==> isSearchMode
      ensures !isSearchMode ==> r.params == map["page" := Num(page), "size" := Num(size)]
      ensures isSearchMode ==> forall k :: k in r.params ==> !IsBlank(r.params[k])
    {
      RequestFor(isSearchMode, filters, page, size)
    }

    predicate PreviousEnabled()
      reads this
    {
      page != 0
    }

    predicate NextEnabled()
      reads this
    {
      page + 1 < totalPages
    }

    /** The fetch effect's handling of its response: a success replaces the
        rows and the page count verbatim, a failure keeps both and shows an
        error. */
    method ApplyFetch(response: Response<PageResult>)
      modifies this`transactions, this`totalPages, this`toasts
      ensures response.Ok? ==> transactions == response.data.content && totalPages == response.data.totalPages
      ensures response.Ok? ==> toasts == old(toasts)
      ensures response.Failed? ==> transactions == old(transactions) && totalPages == old(totalPages)
      ensures response.Failed? ==> toasts == old(toasts) + [Toast("Unable to load transactions.", Error)]
    {
      match response
      case Ok(result) =>
        transactions := result.content;
        totalPages := result.totalPages;
      case Failed(_, _) =>
        toasts := toasts + [Toast("Unable to load transactions.", Error)];
    }

    /** `handleAddTransaction`. A recurring transaction is posted to its own
        endpoint and the list is left alone. A plain one is posted, then its
        receipt is uploaded when a file was chosen (`receiptUpload` is the
        upload's outcome, `None` when there is no file); only when both
        succeed is the created row appended. */
    method AddTransaction(isRecurring: bool, created: Response<Row>, receiptUpload: Option<Response<()>>)
      modifies this`transactions, this`toasts
      ensures isRecurring ==> transactions == old(transactions)
      ensures isRecurring && created.Ok? ==> toasts == old(toasts) + [Toast("Recurring transaction created!", Success)]
      ensures created.Failed? ==> transactions == old(transactions)
      ensures created.Failed? ==> toasts == old(toasts) + [CreationFailureToast(created.status, created.message, DuplicateFallback)]
      ensures !isRecurring && created.Ok? ==>
        match receiptUpload
        case None =>
          transactions == old(transactions) + [created.data] &&
          toasts == old(toasts) + [Toast("Transaction added successfully!", Success)]
        case Some(Ok(_)) =>
          transactions == old(transactions) + [created.data] &&
          toasts == old(toasts) + [Toast("Transaction and receipt uploaded successfully!", Success)]
        case Some(Failed(status, message)) =>
          transactions == old(transactions) &&
          toasts == old(toasts) + [CreationFailureToast(status, message, DuplicateFallback)]
    {
      match created
      case Failed(status, message) =>
        toasts := toasts + [CreationFailureToast(status, message, DuplicateFallback)];
      case Ok(row) =>
        if isRecurring {
          toasts := toasts + [Toast("Recurring transaction created!", Success)];
        } else {
          match receiptUpload
          case None =>
            toasts := toasts + [Toast("Transaction added successfully!", Success)];
            transactions := transactions + [row];
          case Some(Ok(_)) =>
            toasts := toasts + [Toast("Transaction and receipt uploaded successfully!", Success)];
            transactions := transactions + [row];
          case Some(Failed(status, message)) =>
            toasts := toasts + [CreationFailureToast(status, message, DuplicateFallback)];
        }
    }

    /** `handleEditTransaction` for the row being edited, whose id is `editId`. */
    method EditTransaction(editId: Id, response: Response<Row>)
      modifies this`transactions, this`toasts
      ensures response.Ok? ==> transactions == ReplaceById(old(transactions), editId, response.data)
      ensures response.Ok? ==> toasts == old(toasts) + [Toast("Transaction updated successfully!", Success)]
      ensures response.Failed? ==> transactions == old(transactions)
      ensures response.Failed? ==> toasts == old(toasts) + [Toast("Failed to update transaction.", Error)]
    {
      match response
      case Ok(row) =>
        transactions := ReplaceById(transactions, editId, row);
        toasts := toasts + [Toast("Transaction updated successfully!", Success)];
      case Failed(_, _) =>
        toasts := toasts + [Toast("Failed to update transaction.", Error)];
    }

    /** `handleDeleteTransaction` for the row whose id is `deleteId`. */
    method DeleteTransaction(deleteId: Id, response: Response<()>)
      modifies this`transactions, this`toasts
      ensures response.Ok? ==> transactions == RemoveById(old(transactions), deleteId)
      ensures response.Ok? ==> toasts == old(toasts) + [Toast("Transaction deleted successfully!", Success)]
      ensures response.Failed? ==> transactions == old(transactions)
      ensures response.Failed? ==> toasts == old(toasts) + [Toast("Failed to delete transaction.", Error)]
    {
      match response
      case Ok(_) =>
        transactions := RemoveById(transactions, deleteId);
        toasts := toasts + [Toast("Transaction deleted successfully!", Success)];
      case Failed(_, _) =>
        toasts := toasts + [Toast("Failed to delete transaction.", Error)];
    }

    /** The Search button: back to the first page, in search mode. */
    method Search()
      modifies this`page, this`isSearchMode
      ensures page == 0 && isSearchMode
      ensures FetchRequest() == SearchRequest(SearchParams(filters, 0, size))
    {
      page := 0;
      isSearchMode := true;
    }

    /** The Reset button: the listed filters cleared, list mode, first page. */
    method Reset()
      modifies this`filters, this`isSearchMode, this`page
      ensures filters == ResetFilters && !isSearchMode && page == 0
      ensures FetchRequest() == ListRequest(map["page" := Num(0), "size" := Num(size)])
    {
      filters := ResetFilters;
      isSearchMode := false;
      page := 0;
    }

    /** The Rows selector: a new page size restarts at the first page. */
    method ChangeSize(newSize: nat)
      modifies this`size, this`page
      ensures size == newSize && page == 0
    {
      size := newSize;
      page := 0;
    }

    /** The Previous button: `max(page - 1, 0)`; the button is disabled on the first page. */
    method ClickPrevious()
      modifies this`page
      ensures old(PreviousEnabled()) ==> page == old(page) - 1
      ensures !old(PreviousEnabled()) ==> page == old(page) == 0
    {
      if PreviousEnabled() {
        var previous := page - 1;
        page := if previous > 0 then previous else 0;
      }
    }

    /** The Next button: one page on; the button is disabled on the last page. */
    method ClickNext()
      modifies this`page
      ensures old(NextEnabled()) ==> page == old(page) + 1
      ensures !old(NextEnabled()) ==> page == old(page) && old(page) + 1 >= totalPages
    {
      if NextEnabled() {
        page := page + 1;
      }
    }

    /** A text field of the filter bar: `{...prev, [name]: value}`. */
    method ChangeFilter(name: string, value: string)
      modifies this`filters
      ensures filters == old(filters)[name := Str(value)]
    {
      filters := filters[name := Str(value)];
    }

    /** The transaction-type toggle; a deselect delivers `null`, which is stored as it is. */
    method ToggleTransactionType(selected: Value)
      modifies this`filters
      ensures filters == old(filters)["transactionType" := selected]
    {
      filters := filters["transactionType" := selected];
    }

    /** The date picker: `dateInput` keeps the raw value, `date` its midnight form. */
    method ChangeDate(raw: string)
      modifies this`filters
      ensures filters == WithDate(old(filters), raw)
    {
      filters := WithDate(filters, raw);
    }
  }
}
