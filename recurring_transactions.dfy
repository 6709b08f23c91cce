/** The state and the handlers of the recurring-transaction list page. */
module RecurringTransactions {
  import opened Json
  import opened Api
  import opened SearchQuery
  import opened Reconcile

  const DefaultSize: nat := 5

  /** `DEFAULT_FILTERS`: the filters the page starts with and Reset restores. */
  const DefaultFilters: Fields := map[
    "recurringTransactionName" := Str(""), "minAmount" := Str(""), "maxAmount" := Str(""),
    "category" := Str(""), "paymentType" := Str(""), "transactionType" := Str(""),
    "date" := Str(""), "isActive" := Str(""), "frequency" := Str("")]

  const DuplicateFallback := "Duplicate transaction name."

  /** What a change event's target reports: `name`, `value`, `type`, `checked`. */
  datatype InputEvent = InputEvent(name: string, value: string, inputType: string, checked: bool)

  /** `handleInputChange`: field `name` becomes `checked` for a checkbox and
      `value` otherwise; every other field is kept. */
  function ApplyInput(fields: Fields, e: InputEvent): (f: Fields)
    ensures f.Keys == fields.Keys + {e.name}
    ensures f[e.name] == (if e.inputType == "checkbox" then Bool(e.checked) else Str(e.value))
    ensures forall k :: k in fields && k != e.name ==> f[k] == fields[k]
  {
    fields[e.name := if e.inputType == "checkbox" then Bool(e.checked) else Str(e.value)]
  }

  /** Two changes of the same field: the later one wins. */
  lemma ApplyInputLastWins(fields: Fields, e1: InputEvent, e2: InputEvent)
    requires e1.name == e2.name
    ensures ApplyInput(ApplyInput(fields, e1), e2) == ApplyInput(fields, e2)
  {
  }

  /** Changes of two different fields commute. */
  lemma ApplyInputCommutes(fields: Fields, e1: InputEvent, e2: InputEvent)
    requires e1.name != e2.name
    ensures ApplyInput(ApplyInput(fields, e1), e2) == ApplyInput(ApplyInput(fields, e2), e1)
  {
  }

  /** Emptying a text filter removes it from the search query, while an
      unticked checkbox is sent as `false`: `false` is not a blank value. */
  lemma ApplyInputQuery(fields: Fields, e: InputEvent, page: nat, size: nat)
    requires !IsPagingKey(e.name)
    ensures e.inputType != "checkbox" && e.value == "" ==> e.name !in SearchParams(ApplyInput(fields, e), page, size)
    ensures e.inputType == "checkbox" ==>
      e.name in SearchParams(ApplyInput(fields, e), page, size) &&
      SearchParams(ApplyInput(fields, e), page, size)[e.name] == Bool(e.checked)
  {
    var v := if e.inputType == "checkbox" then Bool(e.checked) else Str(e.value);
    assert ApplyInput(fields, e) == fields[e.name := v];
    UpdateThenQuery(fields, e.name, v, page, size);
  }

  /** Reset's filters never reach the query: only the paging keys are sent. */
  lemma DefaultFiltersQuery(page: nat, size: nat)
    ensures SearchParams(DefaultFilters, page, size).Keys == {"page", "size", "sortBy", "direction"}
  {
    var q := SearchParams(DefaultFilters, page, size);
    assert forall k :: k in DefaultFilters ==> IsBlank(DefaultFilters[k]);
    assert q.Keys <= {"page", "size", "sortBy", "direction"};
  }

  class RecurringTransactionPage {
    var page: nat
    var size: nat
    var totalPages: int
    var filters: Fields
    var isSearchMode: bool
    var transactions: seq<Row>
    /** Every notification shown so far, oldest first. */
    var toasts: seq<Toast>

    constructor ()
      ensures page == 0 && size == DefaultSize && totalPages == 0
      ensures filters == DefaultFilters && !isSearchMode
      ensures transactions == [] && toasts == []
    {
      page, size, totalPages := 0, DefaultSize, 0;
      filters, isSearchMode := DefaultFilters, false;
      transactions, toasts := [], [];
    }

    /** The request the fetch effect issues in the current state. */
    function FetchRequest(): (r: Request)
      reads this
      ensures r.SearchRequest? <==> isSearchMode
      ensures !isSearchMode ==> r.params == map["page" := Num(page), "size" := Num(size)]
      ensures isSearchMode ==> forall k :: k in r.params ==> !IsBlank(r.params[k])
    {
      RequestFor(isSearchMode, filters, page, size)
    }

    predicate PreviousEnabled()
      reads this
    {
      page != 0
    }

    predicate NextEnabled()
      reads this
    {
      page + 1 < totalPages
    }

    /** The fetch effect's handling of its response: a success replaces the
        rows and the page count verbatim, a failure keeps both and shows an
        error. */
    method ApplyFetch(response: Response<PageResult>)
      modifies this`transactions, this`totalPages, this`toasts
      ensures response.Ok? ==> transactions == response.data.content && totalPages == response.data.totalPages
      ensures response.Ok? ==> toasts == old(toasts)
      ensures response.Failed? ==> transactions == old(transactions) && totalPages == old(totalPages)
      ensures response.Failed? ==> toasts == old(toasts) + [Toast("Unable to load recurring transactions.", Error)]
    {
      match response
      case Ok(result) =>
        transactions := result.content;
        totalPages := result.totalPages;
      case Failed(_, _) =>
        toasts := toasts + [Toast("Unable to load recurring transactions.", Error)];
    }

    /** `handleCreateTransaction`: the created row goes to the front of the
        list; a 409 becomes a warning with the backend's message. */
    method CreateTransaction(response: Response<Row>)
      modifies this`transactions, this`toasts
      ensures response.Ok? ==> transactions == [response.data] + old(transactions)
      ensures response.Ok? ==> toasts == old(toasts) + [Toast("Recurring transaction created!", Success)]
      ensures response.Failed? ==> transactions == old(transactions)
      ensures response.Failed? ==> toasts == old(toasts) + [CreationFailureToast(response.status, response.message, DuplicateFallback)]
    {
      match response
      case Ok(row) =>
        transactions := [row] + transactions;
        toasts := toasts + [Toast("Recurring transaction created!", Success)];
      case Failed(status, message) =>
        toasts := toasts + [CreationFailureToast(status, message, DuplicateFallback)];
    }

    /** `handleEditTransaction` for the row being edited, whose id is `editId`. */
    method EditTransaction(editId: Id, response: Response<Row>)
      modifies this`transactions, this`toasts
      ensures response.Ok? ==> transactions == ReplaceById(old(transactions), editId, response.data)
      ensures response.Ok? ==> toasts == old(toasts) + [Toast("Recurring transaction updated!", Success)]
      ensures response.Failed? ==> transactions == old(transactions)
      ensures response.Failed? ==> toasts == old(toasts) + [Toast("Update failed.", Error)]
    {
      match response
      case Ok(row) =>
        transactions := ReplaceById(transactions, editId, row);
        toasts := toasts + [Toast("Recurring transaction updated!", Success)];
      case Failed(_, _) =>
        toasts := toasts + [Toast("Update failed.", Error)];
    }

    /** `handleDeleteTransaction` for the row whose id is `deleteId`. */
    method DeleteTransaction(deleteId: Id, response: Response<()>)
      modifies this`transactions, this`toasts
      ensures response.Ok? ==> transactions == RemoveById(old(transactions), deleteId)
      ensures response.Ok? ==> toasts == old(toasts) + [Toast("Recurring transaction deleted!", Success)]
      ensures response.Failed? ==> transactions == old(transactions)
      ensures response.Failed? ==> toasts == old(toasts) + [Toast("Deletion failed.", Error)]
    {
      match response
      case Ok(_) =>
        transactions := RemoveById(transactions, deleteId);
        toasts := toasts + [Toast("Recurring transaction deleted!", Success)];
      case Failed(_, _) =>
        toasts := toasts + [Toast("Deletion failed.", Error)];
    }

    /** The Search button: back to the first page, in search mode. */
    method Search()
      modifies this`page, this`isSearchMode
      ensures page == 0 && isSearchMode
      ensures FetchRequest() == SearchRequest(SearchParams(filters, 0, size))
    {
      page := 0;
      isSearchMode := true;
    }

    /** The Reset button: `DEFAULT_FILTERS` restored, list mode, first page. */
    method Reset()
      modifies this`filters, this`isSearchMode, this`page
      ensures filters == DefaultFilters && !isSearchMode && page == 0
      ensures FetchRequest() == ListRequest(map["page" := Num(0), "size" := Num(size)])
    {
      filters := DefaultFilters;
      isSearchMode := false;
      page := 0;
    }

    /** The Rows selector: a new page size restarts at the first page. */
    method ChangeSize(newSize: nat)
      modifies this`size, this`page
      ensures size == newSize && page == 0
    {
      size := newSize;
      page := 0;
    }

    /** The Previous button: `max(page - 1, 0)`; the button is disabled on the first page. */
    method ClickPrevious()
      modifies this`page
      ensures old(PreviousEnabled()) ==> page == old(page) - 1
      ensures !old(PreviousEnabled()) ==> page == old(page) == 0
    {
      if PreviousEnabled() {
        var previous := page - 1;
        page := if previous > 0 then previous else 0;
      }
    }

    /** The Next button: one page on; the button is disabled on the last page. */
    method ClickNext()
      modifies this`page
      ensures old(NextEnabled()) ==> page == old(page) + 1
      ensures !old(NextEnabled()) ==> page == old(page) && old(page) + 1 >= totalPages
    {
      if NextEnabled() {
        page := page + 1;
      }
    }

    /** A field of the filter bar. */
    method ChangeFilter(e: InputEvent)
      modifies this`filters
      ensures filters == ApplyInput(old(filters), e)
    {
      filters := ApplyInput(filters, e);
    }

    /** The transaction-type toggle stores `val || ''`, so a deselect (`null`)
        is stored as the empty string. */
    method ToggleTransactionType(selected: Value)
      modifies this`filters
      ensures filters == old(filters)["transactionType" := OrEmpty(selected)]
      ensures filters["transactionType"] != Null
    {
      filters := filters["transactionType" := OrEmpty(selected)];
    }
  }
}
