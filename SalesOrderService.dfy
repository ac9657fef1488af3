/** The sales-order service (`src/services/salesOrderService.ts`): which
    client call each operation makes, with which path, parameters and body.
    The service adds nothing else; the client's own behaviour is modelled in
    `ApiClient`. */
module SalesOrderService {
  import opened Common
  import opened Strings
  import opened Js
  import FormUrl
  import ApiClient

  const Endpoint: string := "/sales-orders"

  const DefaultPage: int := 0
  const DefaultSize: int := 20
  const DefaultSort: string := "salesOrderNumber"
  const DefaultDirection: string := "asc"

  /** `PaginationParams`, every field optional. */
  datatype Pagination = Pagination(page: Option<int>, size: Option<int>, sort: Option<string>, direction: Option<string>)

  const NoPagination: Pagination := Pagination(None, None, None, None)

  /** `n || d` for an optional number: `undefined` and 0 give `d`. */
  function NumberOr(n: Option<int>, d: int): (r: int)
    ensures n.Some? && n.value != 0 ==> r == n.value
    ensures n.None? || n.value == 0 ==> r == d
  {
    if n.Some? && n.value != 0 then n.value else d
  }

  /** `s || d` for an optional string: `undefined` and "" give `d`. */
  function TextOr(s: Option<string>, d: string): (r: string)
    ensures s.Some? && s.value != "" ==> r == s.value
    ensures s.None? || s.value == "" ==> r == d
  {
    if s.Some? && s.value != "" then s.value else d
  }

  /** A client call: what it is, the endpoint, the `get` parameters and the
      body. */
  datatype Request =
    | Get(endpoint: string, params: Option<seq<(string, Option<Json>)>>)
    | Post(endpoint: string, data: Option<Json>)
    | Put(endpoint: string, data: Option<Json>)
    | Delete(endpoint: string)

  /** The pagination entries `getSalesOrders` adds after the filters. */
  function PaginationEntries(p: Pagination): seq<(string, Option<Json>)> {
    [("page", Some(JNum(NumberOr(p.page, DefaultPage)))),
     ("size", Some(JNum(NumberOr(p.size, DefaultSize)))),
     ("sort", Some(JStr(TextOr(p.sort, DefaultSort)))),
     ("direction", Some(JStr(TextOr(p.direction, DefaultDirection))))]
  }

  /** `getSalesOrders(filters, pagination)`: the filter entries, in their
      own order, then `page`, `size`, `sort` and `direction`. */
  function GetSalesOrders(filters: seq<(string, Option<Json>)>, pagination: Pagination): (r: Request)
    ensures r.Get? && r.endpoint == Endpoint && r.params.Some?
    ensures |r.params.value| == |filters| + 4 && r.params.value[..|filters|] == filters
  {
    var params := filters + PaginationEntries(pagination);
    assert params[..|filters|] == filters;
    Get(Endpoint, Some(params))
  }

  /** The query `getSalesOrders` produces: the kept filters, then the four
      pagination values, which are always sent, with 0, 20,
      `salesOrderNumber` and `asc` for every falsy input. */
  lemma GetSalesOrdersQuery(filters: seq<(string, Option<Json>)>, pagination: Pagination)
    ensures ApiClient.AppendedParams(GetSalesOrders(filters, pagination).params.value)
      == ApiClient.AppendedParams(filters)
         + [("page", IntToString(NumberOr(pagination.page, DefaultPage))),
            ("size", IntToString(NumberOr(pagination.size, DefaultSize))),
            ("sort", TextOr(pagination.sort, DefaultSort)),
            ("direction", TextOr(pagination.direction, DefaultDirection))]
  {
    var tail := PaginationEntries(pagination);
    ApiClient.AppendedParamsAppend(filters, tail);
    assert DefaultSort != "" && DefaultDirection != "";
    ApiClient.AppendedAllKept(tail);
  }

  /** Without pagination the first page of 20, ordered by number ascending,
      is requested; a size of 0 is replaced just like a missing one. */
  lemma DefaultPagination(filters: seq<(string, Option<Json>)>, page: Option<int>)
    ensures PaginationEntries(NoPagination) == [("page", Some(JNum(0))), ("size", Some(JNum(20))),
      ("sort", Some(JStr("salesOrderNumber"))), ("direction", Some(JStr("asc")))]
    ensures PaginationEntries(Pagination(page, Some(0), None, None))
      == PaginationEntries(Pagination(page, None, None, None))
  {
  }

  /** `searchSalesOrders(query, pagination)`: exactly `q`, `page` and `size`. */
  function SearchSalesOrders(query: string, pagination: Pagination): (r: Request)
    ensures r.Get? && r.endpoint == Endpoint + "/search" && r.params.Some?
    ensures |r.params.value| == 3
  {
    Get(Endpoint + "/search", Some([("q", Some(JStr(query))),
      ("page", Some(JNum(NumberOr(pagination.page, DefaultPage)))),
      ("size", Some(JNum(NumberOr(pagination.size, DefaultSize))))]))
  }

  /** The query of a search: the text unless it is empty, then the page and
      the size, with the same defaults as `getSalesOrders`. */
  lemma SearchQuery(query: string, pagination: Pagination)
    ensures ApiClient.AppendedParams(SearchSalesOrders(query, pagination).params.value)
      == (if query == "" then [] else [("q", query)])
         + [("page", IntToString(NumberOr(pagination.page, DefaultPage))),
            ("size", IntToString(NumberOr(pagination.size, DefaultSize)))]
  {
    var ps := SearchSalesOrders(query, pagination).params.value;
    var q := [("q", Some(JStr(query)))];
    var rest := [("page", Some(JNum(NumberOr(pagination.page, DefaultPage)))),
      ("size", Some(JNum(NumberOr(pagination.size, DefaultSize))))];
    assert ps == q + rest;
    ApiClient.AppendedParamsAppend(q, rest);
    ApiClient.AppendedAllKept(rest);
  }

  /** The resource path of one sales order. */
  function OrderPath(salesOrderNumber: string): (p: string)
    ensures StartsWith(p, Endpoint + "/")
  {
    Endpoint + "/" + salesOrderNumber
  }

  /** The number can be read back from its path, so distinct orders have
      distinct paths. */
  lemma OrderPathNumber(salesOrderNumber: string)
    ensures OrderPath(salesOrderNumber)[|Endpoint| + 1..] == salesOrderNumber
  {
  }

  lemma OrderPathInjective(a: string, b: string)
    requires OrderPath(a) == OrderPath(b)
    ensures a == b
  {
    OrderPathNumber(a);
    OrderPathNumber(b);
  }

  /** `getSalesOrderByNumber(n)` */
  function GetSalesOrderByNumber(salesOrderNumber: string): (r: Request)
    ensures r == Get(OrderPath(salesOrderNumber), None)
  {
    Get(Endpoint + "/" + salesOrderNumber, None)
  }

  /** `createSalesOrder(order)`: the order is the body. */
  function CreateSalesOrder(salesOrder: Json): (r: Request)
    ensures r.Post? && r.endpoint == Endpoint && r.data == Some(salesOrder)
  {
    Post(Endpoint, Some(salesOrder))
  }

  /** `updateSalesOrder(n, changes)` */
  function UpdateSalesOrder(salesOrderNumber: string, changes: Json): (r: Request)
    ensures r.Put? && r.endpoint == OrderPath(salesOrderNumber) && r.data == Some(changes)
  {
    Put(Endpoint + "/" + salesOrderNumber, Some(changes))
  }

  /** `deleteSalesOrder(n)` */
  function DeleteSalesOrder(salesOrderNumber: string): (r: Request)
    ensures r == Delete(OrderPath(salesOrderNumber))
  {
    Delete(Endpoint + "/" + salesOrderNumber)
  }

  /** `getSalesOrdersByDeliveryWeek(week)` */
  function GetSalesOrdersByDeliveryWeek(week: string): (r: Request)
    ensures r.Get? && r.params.None? && StartsWith(r.endpoint, Endpoint + "/delivery-week/")
    ensures r.endpoint[|Endpoint| + 15..] == week
  {
    var p := Endpoint + "/delivery-week/" + week;
    assert p[..|Endpoint| + 15] == Endpoint + "/delivery-week/";
    Get(p, None)
  }
}
