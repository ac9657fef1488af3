/** The sales-order list state (`src/composables/useSalesOrders.ts`): the
    loaded page of orders, the order on display, the loading and error flags,
    the pagination counters and the filter form, all updated in place by the
    operations.  Each operation that talks to the backend takes the service's
    answer as a parameter and records the service call it made. */
module SalesOrders {
  import opened Common
  import opened Js
  import Sorting
  import SOS = SalesOrderService

  /** `SalesOrderDto`; the items are kept as JSON. */
  datatype SalesOrder = SalesOrder(
    salesOrderNumber: string,
    soldToParty: string,
    requestedDeliveryDate: string,
    requestedDeliveryWeek: string,
    completeDelivery: bool,
    toItem: seq<Json>)

  /** `PaginatedResponse<SalesOrderDto>` */
  datatype Page = Page(content: seq<SalesOrder>, totalElements: int, totalPages: int, size: int,
                       number: int, first: bool, last: bool)

  /** The value of one filter field: text, a flag, or `undefined`. */
  datatype FilterValue = Text(s: string) | Flag(b: bool) | Unset

  /** The filter form as it starts out, in the order of its keys. */
  const InitialFilters: seq<(string, FilterValue)> := [
    ("salesOrderNumber", Text("")), ("soldToParty", Text("")), ("requestedDeliveryWeek", Text("")),
    ("completeDelivery", Unset), ("dateFrom", Text("")), ("dateTo", Text(""))]

  /** A filter that is sent: neither '' nor `undefined`. */
  predicate IsActive(v: FilterValue) {
    v != Text("") && v != Unset
  }

  /** `Object.fromEntries(Object.entries(filters).filter(...))`, turned
      into the parameters the service receives. */
  function ActiveFilters(filters: seq<(string, FilterValue)>): (ps: seq<(string, Option<Json>)>)
    ensures |ps| <= |filters|
    ensures forall k :: 0 <= k < |filters| && IsActive(filters[k].1) ==> (filters[k].0, Some(AsJson(filters[k].1))) in ps
    ensures forall p :: p in ps ==> exists k :: 0 <= k < |filters| && IsActive(filters[k].1) && p == (filters[k].0, Some(AsJson(filters[k].1)))
  {
    if |filters| == 0 then []
    else
      var rest := ActiveFilters(filters[1..]);
      assert forall k :: 1 <= k < |filters| ==> filters[k] == filters[1..][k - 1];
      if IsActive(filters[0].1) then [(filters[0].0, Some(AsJson(filters[0].1)))] + rest else rest
  }

  function AsJson(v: FilterValue): Json
    requires v != Unset
  {
    match v
    case Text(s) => JStr(s)
    case Flag(b) => JBool(b)
  }

  /** The filter form `clearFilters` leaves: every field '' except
      `completeDelivery`, which becomes `undefined`. */
  function Cleared(key: string): FilterValue {
    if key == "completeDelivery" then Unset else Text("")
  }

  /** A cleared form sends no filter at all. */
  lemma {:induction false} ClearedFormInactive(filters: seq<(string, FilterValue)>)
    requires forall k :: 0 <= k < |filters| ==> filters[k].1 == Cleared(filters[k].0)
    ensures ActiveFilters(filters) == []
    decreases |filters|
  {
    if |filters| > 0 {
      assert !IsActive(filters[0].1);
      assert forall k :: 0 <= k < |filters[1..]| ==> filters[1..][k] == filters[k + 1];
      ClearedFormInactive(filters[1..]);
    }
  }

  /** The index `findIndex` finds: the first order with that number. */
  function FindIndex(orders: seq<SalesOrder>, salesOrderNumber: string): (i: Option<nat>)
    ensures i.Some? ==> (i.value < |orders| && orders[i.value].salesOrderNumber == salesOrderNumber
      && forall j :: 0 <= j < i.value ==> orders[j].salesOrderNumber != salesOrderNumber)
    ensures i.None? ==> forall j :: 0 <= j < |orders| ==> orders[j].salesOrderNumber != salesOrderNumber
  {
    if |orders| == 0 then None
    else if orders[0].salesOrderNumber == salesOrderNumber then Some(0)
    else
      match FindIndex(orders[1..], salesOrderNumber)
      case None => None
      case Some(i) => Some(i + 1)
  }

  /** The list `deleteSalesOrder` leaves: the others, in order, each as
      often as before. */
  function Without(orders: seq<SalesOrder>, salesOrderNumber: string): (r: seq<SalesOrder>)
    ensures forall o :: o in r <==> o in orders && o.salesOrderNumber != salesOrderNumber
  {
    Sorting.FilterMembers(orders, (o: SalesOrder) => o.salesOrderNumber != salesOrderNumber);
    Sorting.Filter(orders, (o: SalesOrder) => o.salesOrderNumber != salesOrderNumber)
  }

  /** `Without` keeps the other orders in their order, each as often as it
      occurred, and drops every occurrence of an order with that number. */
  lemma WithoutKeepsOthers(orders: seq<SalesOrder>, salesOrderNumber: string)
    ensures Sorting.Subsequence(Without(orders, salesOrderNumber), orders)
    ensures forall o ::
      multiset(Without(orders, salesOrderNumber))[o] == if o.salesOrderNumber != salesOrderNumber then multiset(orders)[o] else 0
  {
    Sorting.FilterSubsequence(orders, (o: SalesOrder) => o.salesOrderNumber != salesOrderNumber);
    Sorting.FilterMultiplicity(orders, (o: SalesOrder) => o.salesOrderNumber != salesOrderNumber);
  }

  const FetchFailed: string := "Failed to fetch sales orders"

  /** `useSalesOrders()` */
  class SalesOrderList {
    var salesOrders: seq<SalesOrder>
    var currentSalesOrder: Option<SalesOrder>
    var loading: bool
    var error: Option<string>
    var page: int
    var size: int
    var totalElements: int
    var totalPages: int
    var first: bool
    var last: bool
    var filters: seq<(string, FilterValue)>
    /** The service calls made so far, in order. */
    var requests: seq<SOS.Request>

    constructor()
      ensures salesOrders == [] && currentSalesOrder.None? && !loading && error.None?
      ensures page == 0 && size == 20 && totalElements == 0 && totalPages == 0 && first && last
      ensures filters == InitialFilters && requests == []
    {
      salesOrders := [];
      currentSalesOrder := None;
      loading := false;
      error := None;
      page := 0;
      size := 20;
      totalElements := 0;
      totalPages := 0;
      first := true;
      last := true;
      filters := InitialFilters;
      requests := [];
    }

    /** `isEmpty`: loaded, nothing to show and no error. */
    predicate IsEmpty()
      reads this
    {
      !loading && |salesOrders| == 0 && error.None?
    }

    /** The list after a page request answered with `response`: the page's
      content and counters, or an empty list and the error message. */
    predicate ShowsPage(response: Result<Page, Thrown>, failure: string)
      reads this
    {
      !loading &&
      match response
      case Ok(r) =>
        salesOrders == r.content && error.None? && totalElements == r.totalElements
        && totalPages == r.totalPages && first == r.first && last == r.last
      case Err(e) => salesOrders == [] && error == Some(MessageOr(e, failure))
    }

    /** The call `fetchSalesOrders` makes with the current form and page. */
    function FetchRequest(): SOS.Request
      reads this
    {
      SOS.GetSalesOrders(ActiveFilters(filters), SOS.Pagination(Some(page), Some(size), None, None))
    }

    /** `clearError()` */
    method ClearError()
      modifies this
      ensures error.None?
      ensures salesOrders == old(salesOrders) && currentSalesOrder == old(currentSalesOrder) && loading == old(loading)
      ensures page == old(page) && filters == old(filters) && requests == old(requests)
      ensures totalElements == old(totalElements) && totalPages == old(totalPages) && first == old(first) && last == old(last)
    {
      error := None;
    }

    /** `fetchSalesOrders()`: on success the page replaces the list and the
      counters; on failure the list is emptied and the error recorded. */
    method FetchSalesOrders(response: Result<Page, Thrown>)
      modifies this
      ensures requests == old(requests) + [old(FetchRequest())]
      ensures !loading
      ensures response.Ok? ==> (salesOrders == response.value.content && error.None?
        && totalElements == response.value.totalElements && totalPages == response.value.totalPages
        && first == response.value.first && last == response.value.last)
      ensures response.Err? ==> (salesOrders == [] && error == Some(MessageOr(response.error, FetchFailed))
        && totalElements == old(totalElements) && totalPages == old(totalPages) && first == old(first) && last == old(last))
      ensures ShowsPage(response, FetchFailed)
      ensures page == old(page) && size == old(size) && filters == old(filters) && currentSalesOrder == old(currentSalesOrder)
    {
      BeginRequest(FetchRequest());
      ReceivePage(response, FetchFailed);
    }

    /** The start of every call: loading, no error, and the call recorded. */
    method BeginRequest(request: SOS.Request)
      modifies this
      ensures loading && error.None? && requests == old(requests) + [request]
      ensures salesOrders == old(salesOrders) && currentSalesOrder == old(currentSalesOrder)
      ensures page == old(page) && size == old(size) && filters == old(filters)
      ensures totalElements == old(totalElements) && totalPages == old(totalPages) && first == old(first) && last == old(last)
    {
      loading := true;
      error := None;
      requests := requests + [request];
    }

    /** The answer to a page request: the page replaces the list and the
      counters, or the list is emptied and `failure` (or the thrown message)
      recorded; loading ends either way. */
    method ReceivePage(response: Result<Page, Thrown>, failure: string)
      modifies this
      ensures !loading
      ensures response.Ok? ==> (salesOrders == response.value.content && error == old(error)
        && totalElements == response.value.totalElements && totalPages == response.value.totalPages
        && first == response.value.first && last == response.value.last)
      ensures response.Err? ==> (salesOrders == [] && error == Some(MessageOr(response.error, failure))
        && totalElements == old(totalElements) && totalPages == old(totalPages) && first == old(first) && last == old(last))
      ensures requests == old(requests) && page == old(page) && size == old(size) && filters == old(filters)
      ensures currentSalesOrder == old(currentSalesOrder)
    {
      match response {
        case Ok(r) =>
          salesOrders := r.content;
          totalElements := r.totalElements;
          totalPages := r.totalPages;
          first := r.first;
          last := r.last;
        case Err(e) =>
          error := Some(MessageOr(e, failure));
          salesOrders := [];
      }
      loading := false;
    }

    /** `fetchSalesOrderByNumber(n)` */
    method FetchSalesOrderByNumber(salesOrderNumber: string, response: Result<SalesOrder, Thrown>)
      modifies this
      ensures requests == old(requests) + [SOS.GetSalesOrderByNumber(salesOrderNumber)]
      ensures !loading
      ensures response.Ok? ==> currentSalesOrder == Some(response.value) && error.None?
      ensures response.Err? ==> currentSalesOrder.None? && error == Some(MessageOr(response.error, "Failed to fetch sales order"))
      ensures salesOrders == old(salesOrders) && page == old(page) && size == old(size) && filters == old(filters)
      ensures totalElements == old(totalElements) && totalPages == old(totalPages) && first == old(first) && last == old(last)
    {
      BeginRequest(SOS.GetSalesOrderByNumber(salesOrderNumber));
      match response {
        case Ok(o) => currentSalesOrder := Some(o);
        case Err(e) =>
          error := Some(MessageOr(e, "Failed to fetch sales order"));
          currentSalesOrder := None;
      }
      loading := false;
    }

    /** `searchSalesOrders(query)` */
    method SearchSalesOrders(query: string, response: Result<Page, Thrown>)
      modifies this
      ensures requests == old(requests) + [SOS.SearchSalesOrders(query, SOS.Pagination(Some(old(page)), Some(old(size)), None, None))]
      ensures !loading
      ensures response.Ok? ==> (salesOrders == response.value.content && error.None?
        && totalElements == response.value.totalElements && totalPages == response.value.totalPages
        && first == response.value.first && last == response.value.last)
      ensures response.Err? ==> (salesOrders == [] && error == Some(MessageOr(response.error, "Failed to search sales orders"))
        && totalElements == old(totalElements) && totalPages == old(totalPages) && first == old(first) && last == old(last))
      ensures page == old(page) && size == old(size) && filters == old(filters) && currentSalesOrder == old(currentSalesOrder)
    {
      BeginRequest(SOS.SearchSalesOrders(query, SOS.Pagination(Some(page), Some(size), None, None)));
      ReceivePage(response, "Failed to search sales orders");
    }

    /** `createSalesOrder(data)`: the created order goes to the front; a
      failure is recorded and rethrown. */
    method CreateSalesOrder(data: Json, response: Result<SalesOrder, Thrown>) returns (r: Result<SalesOrder, Thrown>)
      modifies this
      ensures r == response
      ensures requests == old(requests) + [SOS.CreateSalesOrder(data)]
      ensures !loading
      ensures response.Ok? ==> salesOrders == [response.value] + old(salesOrders) && error.None?
      ensures response.Err? ==> salesOrders == old(salesOrders) && error == Some(MessageOr(response.error, "Failed to create sales order"))
      ensures currentSalesOrder == old(currentSalesOrder) && page == old(page) && filters == old(filters)
      ensures size == old(size) && totalElements == old(totalElements) && totalPages == old(totalPages) && first == old(first) && last == old(last)
    {
      BeginRequest(SOS.CreateSalesOrder(data));
      match response {
        case Ok(o) => salesOrders := [o] + salesOrders;
        case Err(e) => error := Some(MessageOr(e, "Failed to create sales order"));
      }
      loading := false;
      r := response;
    }

    /** `updateSalesOrder(n, changes)`: only the first order with that
      number is replaced, and the order on display when it has that number. */
    method UpdateSalesOrder(salesOrderNumber: string, changes: Json, response: Result<SalesOrder, Thrown>)
      returns (r: Result<SalesOrder, Thrown>)
      modifies this
      ensures r == response
      ensures requests == old(requests) + [SOS.UpdateSalesOrder(salesOrderNumber, changes)]
      ensures !loading
      ensures |salesOrders| == |old(salesOrders)|
      ensures response.Ok? ==> (error.None? && salesOrders ==
        match FindIndex(old(salesOrders), salesOrderNumber)
        case None => old(salesOrders)
        case Some(i) => old(salesOrders)[i := response.value])
      ensures response.Ok? && old(currentSalesOrder).Some? && old(currentSalesOrder).value.salesOrderNumber == salesOrderNumber
        ==> currentSalesOrder == Some(response.value)
      ensures !(response.Ok? && old(currentSalesOrder).Some? && old(currentSalesOrder).value.salesOrderNumber == salesOrderNumber)
        ==> currentSalesOrder == old(currentSalesOrder)
      ensures response.Err? ==> salesOrders == old(salesOrders) && error == Some(MessageOr(response.error, "Failed to update sales order"))
      ensures page == old(page) && filters == old(filters)
      ensures size == old(size) && totalElements == old(totalElements) && totalPages == old(totalPages) && first == old(first) && last == old(last)
    {
      BeginRequest(SOS.UpdateSalesOrder(salesOrderNumber, changes));
      match response {
        case Ok(updated) =>
          var index := FindIndex(salesOrders, salesOrderNumber);
          if index.Some? {
            salesOrders := salesOrders[index.value := updated];
          }
          if currentSalesOrder.Some? && currentSalesOrder.value.salesOrderNumber == salesOrderNumber {
            currentSalesOrder := Some(updated);
          }
        case Err(e) => error := Some(MessageOr(e, "Failed to update sales order"));
      }
      loading := false;
      r := response;
    }

    /** `deleteSalesOrder(n)`: every order with that number goes, the others
      stay in order, and the order on display is dropped when it has it. */
    method DeleteSalesOrder(salesOrderNumber: string, response: Result<Json, Thrown>) returns (r: Result<Json, Thrown>)
      modifies this
      ensures r == response
      ensures requests == old(requests) + [SOS.DeleteSalesOrder(salesOrderNumber)]
      ensures !loading
      ensures response.Ok? ==> error.None? && salesOrders == Without(old(salesOrders), salesOrderNumber)
      ensures response.Ok? ==> (currentSalesOrder ==
        if old(currentSalesOrder).Some? && old(currentSalesOrder).value.salesOrderNumber == salesOrderNumber then None
        else old(currentSalesOrder))
      ensures response.Err? ==> (salesOrders == old(salesOrders) && currentSalesOrder == old(currentSalesOrder)
        && error == Some(MessageOr(response.error, "Failed to delete sales order")))
      ensures page == old(page) && filters == old(filters)
      ensures size == old(size) && totalElements == old(totalElements) && totalPages == old(totalPages) && first == old(first) && last == old(last)
    {
      BeginRequest(SOS.DeleteSalesOrder(salesOrderNumber));
      match response {
        case Ok(_) =>
          salesOrders := Without(salesOrders, salesOrderNumber);
          if currentSalesOrder.Some? && currentSalesOrder.value.salesOrderNumber == salesOrderNumber {
            currentSalesOrder := None;
          }
        case Err(e) => error := Some(MessageOr(e, "Failed to delete sales order"));
      }
      loading := false;
      r := response;
    }

    /** `nextPage()`: one page on, and a fetch, unless on the last page. */
    method NextPage(response: Result<Page, Thrown>)
      modifies this
      ensures old(last) ==> unchanged(this)
      ensures !old(last) ==> page == old(page) + 1 && requests == old(requests) + [SOS.GetSalesOrders(ActiveFilters(old(filters)),
          SOS.Pagination(Some(old(page) + 1), Some(old(size)), None, None))]
      ensures !old(last) ==> ShowsPage(response, FetchFailed)
      ensures !old(last) && response.Err? ==>
        totalElements == old(totalElements) && totalPages == old(totalPages) && first == old(first) && last == old(last)
      ensures size == old(size) && filters == old(filters) && currentSalesOrder == old(currentSalesOrder)
    {
      if !last {
        page := page + 1;
        FetchSalesOrders(response);
      }
    }

    /** `prevPage()`: one page back, and a fetch, unless on the first page. */
    method PrevPage(response: Result<Page, Thrown>)
      modifies this
      ensures old(first) ==> unchanged(this)
      ensures !old(first) ==> page == old(page) - 1 && requests == old(requests) + [SOS.GetSalesOrders(ActiveFilters(old(filters)),
          SOS.Pagination(Some(old(page) - 1), Some(old(size)), None, None))]
      ensures !old(first) ==> ShowsPage(response, FetchFailed)
      ensures !old(first) && response.Err? ==>
        totalElements == old(totalElements) && totalPages == old(totalPages) && first == old(first) && last == old(last)
      ensures size == old(size) && filters == old(filters) && currentSalesOrder == old(currentSalesOrder)
    {
      if !first {
        page := page - 1;
        FetchSalesOrders(response);
      }
    }

    /** `goToPage(p)`: only a page that exists, counted from 0. */
    method GoToPage(p: int, response: Result<Page, Thrown>)
      modifies this
      ensures !(0 <= p < old(totalPages)) ==> unchanged(this)
      ensures 0 <= p < old(totalPages) ==> page == p && requests == old(requests) + [SOS.GetSalesOrders(ActiveFilters(old(filters)),
          SOS.Pagination(Some(p), Some(old(size)), None, None))]
      ensures 0 <= p < old(totalPages) ==> ShowsPage(response, FetchFailed)
      ensures 0 <= p < old(totalPages) && response.Err? ==>
        totalElements == old(totalElements) && totalPages == old(totalPages) && first == old(first) && last == old(last)
      ensures size == old(size) && filters == old(filters) && currentSalesOrder == old(currentSalesOrder)
    {
      if p >= 0 && p < totalPages {
        page := p;
        FetchSalesOrders(response);
      }
    }

    /** `applyFilters()`: back to the first page, and a fetch with the form. */
    method ApplyFilters(response: Result<Page, Thrown>)
      modifies this
      ensures page == 0 && filters == old(filters)
      ensures requests == old(requests) + [SOS.GetSalesOrders(ActiveFilters(old(filters)),
        SOS.Pagination(Some(0), Some(old(size)), None, None))]
      ensures ShowsPage(response, FetchFailed)
      ensures response.Err? ==>
        totalElements == old(totalElements) && totalPages == old(totalPages) && first == old(first) && last == old(last)
      ensures size == old(size) && currentSalesOrder == old(currentSalesOrder)
    {
      page := 0;
      FetchSalesOrders(response);
    }

    /** `clearFilters()`: every field reset, key by key, then the first page
      is fetched without filters. */
    method ClearFilters(response: Result<Page, Thrown>)
      modifies this
      ensures |filters| == |old(filters)|
      ensures forall k :: 0 <= k < |filters| ==> filters[k] == (old(filters)[k].0, Cleared(old(filters)[k].0))
      ensures page == 0
      ensures requests == old(requests) + [SOS.GetSalesOrders([], SOS.Pagination(Some(0), Some(old(size)), None, None))]
      ensures ShowsPage(response, FetchFailed)
      ensures response.Err? ==>
        totalElements == old(totalElements) && totalPages == old(totalPages) && first == old(first) && last == old(last)
      ensures size == old(size) && currentSalesOrder == old(currentSalesOrder)
    {
      var i := 0;
      while i < |filters|
        invariant 0 <= i <= |filters| == |old(filters)|
        invariant forall k :: 0 <= k < i ==> filters[k] == (old(filters)[k].0, Cleared(old(filters)[k].0))
        invariant forall k :: i <= k < |filters| ==> filters[k] == old(filters)[k]
        invariant page == old(page) && size == old(size) && requests == old(requests)
        invariant currentSalesOrder == old(currentSalesOrder)
        invariant totalElements == old(totalElements) && totalPages == old(totalPages) && first == old(first) && last == old(last)
      {
        var key := filters[i].0;
        filters := filters[i := (key, Cleared(key))];
        i := i + 1;
      }
      ClearedFormInactive(filters);
      page := 0;
      FetchSalesOrders(response);
    }
  }
}
