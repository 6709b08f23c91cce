/** `buildSearchQuery` of the two list pages and the choice between the list
    and the search request that their fetch effects make. */
module SearchQuery {
  import opened Json

  const SortBy := "amount"
  const Direction := "desc"

  /** The keys the query builder writes after spreading the filters. */
  predicate IsPagingKey(k: string) {
    k == "page" || k == "size" || k == "sortBy" || k == "direction"
  }

  /** `{page, size, sortBy: "amount", direction: "desc"}` */
  function Paging(page: nat, size: nat): (p: Fields)
    ensures forall k :: k in p <==> IsPagingKey(k)
    ensures "page" in p && p["page"] == Num(page) && "size" in p && p["size"] == Num(size)
    ensures "sortBy" in p && p["sortBy"] == Str(SortBy) && "direction" in p && p["direction"] == Str(Direction)
  {
    map["page" := Num(page), "size" := Num(size), "sortBy" := Str(SortBy), "direction" := Str(Direction)]
  }

  /** The key/value pairs the query builder drops (`''`, `null`, `undefined`) removed from `m`. */
  function WithoutBlanks(m: Fields): (r: Fields)
    ensures forall k :: k in r <==> k in m && !IsBlank(m[k])
    ensures forall k :: k in r ==> r[k] == m[k]
  {
    map k | k in m && !IsBlank(m[k]) :: m[k]
  }

  /** The parameters of a search request: the filters and the paging keys
      (the paging keys win over a filter of the same name), without blanks. */
  function SearchParams(filters: Fields, page: nat, size: nat): (q: Fields)
    ensures forall k :: k in q ==> !IsBlank(q[k])
    ensures "page" in q && q["page"] == Num(page)
    ensures "size" in q && q["size"] == Num(size)
    ensures "sortBy" in q && q["sortBy"] == Str(SortBy)
    ensures "direction" in q && q["direction"] == Str(Direction)
    ensures forall k :: k in filters && !IsPagingKey(k) && !IsBlank(filters[k]) ==> k in q && q[k] == filters[k]
    ensures forall k :: k in q && !IsPagingKey(k) ==> k in filters && q[k] == filters[k]
    ensures forall k :: k in q ==> IsPagingKey(k) || k in filters
  {
    var p := Paging(page, size);
    var m := filters + p;
    assert forall k :: k in m && IsPagingKey(k) ==> m[k] == p[k];
    assert forall k :: k in m && !IsPagingKey(k) ==> k in filters && m[k] == filters[k];
    WithoutBlanks(m)
  }

  /** `buildSearchQuery`: build the merged object, then delete every blank
      key in place while walking a snapshot of its keys. */
  method BuildSearchQuery(filters: Fields, page: nat, size: nat) returns (params: Fields)
    ensures params == SearchParams(filters, page, size)
  {
    params := filters + Paging(page, size);
    ghost var merged := params;
    var pending := params.Keys;
    while pending != {}
      invariant pending <= merged.Keys
      invariant forall k :: k in params <==> k in merged && (k in pending || !IsBlank(merged[k]))
      invariant forall k :: k in params ==> params[k] == merged[k]
      decreases pending
    {
      var k :| k in pending;
      if IsBlank(params[k]) {
        params := params - {k};
      }
      pending := pending - {k};
    }
    assert params.Keys == WithoutBlanks(merged).Keys;
  }

  /** Building a query from a built query changes nothing. */
  lemma SearchParamsIdempotent(filters: Fields, page: nat, size: nat)
    ensures SearchParams(SearchParams(filters, page, size), page, size) == SearchParams(filters, page, size)
  {
    var q := SearchParams(filters, page, size);
    var q2 := SearchParams(q, page, size);
    assert q2.Keys == q.Keys;
  }

  /** Setting filter `k` to `v` affects the query at `k` only: a blank value
      removes `k` from the query, any other value is sent as it is. */
  lemma UpdateThenQuery(filters: Fields, k: string, v: Value, page: nat, size: nat)
    requires !IsPagingKey(k)
    ensures IsBlank(v) ==> k !in SearchParams(filters[k := v], page, size)
    ensures !IsBlank(v) ==> k in SearchParams(filters[k := v], page, size) && SearchParams(filters[k := v], page, size)[k] == v
    ensures forall j :: j != k ==>
      (j in SearchParams(filters[k := v], page, size) <==> j in SearchParams(filters, page, size))
    ensures forall j :: j != k && j in SearchParams(filters, page, size) ==>
      SearchParams(filters[k := v], page, size)[j] == SearchParams(filters, page, size)[j]
  {
  }

  /** A minimum above the maximum is sent as entered: the client validates no range. */
  lemma InvertedRangePassesThrough(page: nat, size: nat)
    ensures var q := SearchParams(map["minAmount" := Str("100"), "maxAmount" := Str("50")], page, size);
      q.Keys == {"minAmount", "maxAmount", "page", "size", "sortBy", "direction"} &&
      q["minAmount"] == Str("100") && q["maxAmount"] == Str("50")
  {
    var q := SearchParams(map["minAmount" := Str("100"), "maxAmount" := Str("50")], page, size);
    assert q.Keys <= {"minAmount", "maxAmount", "page", "size", "sortBy", "direction"};
  }

  /** The request a list page's fetch effect issues. */
  datatype Request = ListRequest(params: Fields) | SearchRequest(params: Fields)

  /** List mode sends `{page, size}` to the list endpoint; search mode sends
      the built query to the search endpoint. */
  function RequestFor(isSearchMode: bool, filters: Fields, page: nat, size: nat): (r: Request)
    ensures r.SearchRequest? <==> isSearchMode
    ensures !isSearchMode ==> r.params.Keys == {"page", "size"} && r.params["page"] == Num(page) && r.params["size"] == Num(size)
    ensures isSearchMode ==> r.params == SearchParams(filters, page, size)
  {
    if isSearchMode then SearchRequest(SearchParams(filters, page, size))
    else ListRequest(map["page" := Num(page), "size" := Num(size)])
  }

  /** Corollary of `RequestFor`'s second clause: in list mode the filters
      have no influence on the request. */
  lemma ListModeIgnoresFilters(f1: Fields, f2: Fields, page: nat, size: nat)
    ensures RequestFor(false, f1, page, size) == RequestFor(false, f2, page, size)
  {
  }
}
