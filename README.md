# planningVue core in Dafny

This project models the logic of the planningVue dashboard, a Vue front end over a SAP REST backend:

- **The HTTP client** (`ApiClient`). Its retry loop classifies every attempt and backs off exponentially. It builds `get` queries and keeps the default header map.
- **The sales-order, production-order and planned-order services.** Each returns the call it would make (path, query, body) and wraps the answer or the error it gets back.
- **The authentication service and its use of `sessionStorage`.** Credentials are stored Base64-encoded on login and removed on logout.
- **The composables behind the screens:**
  - the paginated sales-order list with its filters and in-place list updates (`SalesOrders`);
  - the weekly sales-order table with sorting, filtering, pagination and footer totals (`SalesOrdersTable`);
  - the planned-order conversion dialog (`PlannedOrderConversion`).
- **The material-code rewrite** (`MaterialCode`).

The network is replaced by data:

- A logical request receives one `Outcome` per attempt: a response with a status and a parsed or unparsable body, a network failure, or a timeout.
- A service or composable receives the answer of the client call it makes as a parameter: the value or the thrown error.
- `sessionStorage` is a map from keys to parsed items.
- Dates are their integer fields.
- Quantities are integers.

The JavaScript built-ins the core relies on are modelled in their own modules. The encoders carry round trips (`split`/`join` and `parseInt`/`String(n)` in `Strings`, `atob`/`btoa` in `Base64`, percent-encoding and `URLSearchParams` in `FormUrl`, UTF-8 in `Utf8`, and `JSON.stringify` of strings in `Js`); the others carry their defining properties (trimming, case mapping and `includes` in `Strings`, stability, order and sum preservation in `Sorting`):

- `String.prototype` trimming, splitting, padding, case mapping and `includes` (`Strings`);
- `parseInt` and `String(n)` (`Strings`);
- `btoa`/`atob` over Latin-1, following RFC 4648 section 4 and the forgiving decoder of the WHATWG HTML standard (`Base64`);
- `URLSearchParams` serialisation as `application/x-www-form-urlencoded` over UTF-8 (`FormUrl`, `Utf8`);
- `JSON.stringify` of strings, thrown values and property lookup (`Js`);
- a stable sort (ES2019 `Array.prototype.sort`), `filter` and `reduce` (`Sorting`).

Imperative source code is modelled as classes:

- `ApiClient.Client` and `SessionStorage.Storage`.
- `AuthService.Auth`.
- `SalesOrders.SalesOrderList`, `SalesOrdersTable.Table` and `PlannedOrderConversion.Conversion`.

Their methods carry `modifies` clauses and state the whole new state. The retry recursion of `request` is a `while` loop proved equal to the recursive reference `ApiClient.Run`. The retry properties are proved as lemmas about `Run`.

## Model

| member | source | states |
|---|---|---|
| ApiClient.InitialHeaders | src/services/apiClient.ts:19-30 | the constructor's header map: `Content-Type` and `Accept` are `application/json`; `X-App-Name`, `X-App-Version` and `X-Client-Mode` come from the environment; `X-Debug-Mode` is `true` and present exactly in development; no `Authorization`, and no other key |
| ApiClient.Client.constructor | src/services/apiClient.ts:15-25 | base URL, timeout and retry limit come from the environment; the headers are `InitialHeaders` |
| ApiClient.MaxAttempts | src/services/apiClient.ts:161 | a request makes at least one attempt, and exactly `retryAttempts` at most when that is at least 1 |
| ApiClient.FailureError | src/services/apiClient.ts:92-116 | a non-OK response fails with the body's truthy `message`, else "Request failed with status N"; an unparsable body gives "HTTP N: statusText"; a `null` body throws the `TypeError` of reading `message` from `null` |
| ApiClient.Classify | src/services/apiClient.ts:79-131 | an attempt succeeds exactly on an OK status with a parsed body, which it returns; a non-OK response fails with `FailureError`; a network failure is a `TypeError`, a timeout an `AbortError`, every failure an `Error` |
| ApiClient.Backoff | src/services/apiClient.ts:170 | the delay `min(1000·2^(n-1), 5000)` lies between 1000 and 5000 |
| ApiClient.BackoffValues | src/services/apiClient.ts:170 | the delays are 1000, 2000, 4000 and then always 5000 |
| ApiClient.BackoffMonotone | src/services/apiClient.ts:170 | later retries never wait less |
| ApiClient.FinalMessage | src/services/apiClient.ts:181-194 | a `TypeError` whose message contains "fetch" gets the network diagnostic; otherwise an `AbortError` gets the timeout message; otherwise the error's own message, or "Unknown error occurred" for a non-Error |
| ApiClient.NetworkMessageContents | src/services/apiClient.ts:183-189 | the network diagnostic names the base URL and ends with "Original error: " and the browser's message |
| ApiClient.TimeoutMessageContents | src/services/apiClient.ts:190-191 | the timeout message contains the configured timeout followed by "ms" |
| ApiClient.RunFrom | src/services/apiClient.ts:43-197 | from attempt a: every attempt before the last failed and was retried, the last was not, each retried attempt k waits `Backoff(k)`, and the result is the last attempt's value or its final error |
| ApiClient.RunSpec | src/services/apiClient.ts:43-197 | a logical request makes between 1 and `MaxAttempts` attempts; the retry, delay and result history is that of `RunFrom` from attempt 1 |
| ApiClient.RunThrowsError | src/services/apiClient.ts:194 | a request only rejects with a plain `Error` |
| ApiClient.NeverRetriedStops | src/services/apiClient.ts:161-167 | a timeout, a message containing '4', or a `TypeError` on attempt 1 ends the request at that attempt; the predicate also copies the source's `error instanceof Error` test, whose non-`Error` case no `Outcome` can produce (every failure is an `Error`, by `RunThrowsError`) |
| ApiClient.TimeoutEndsRequest | src/services/apiClient.ts:163-191 | a request whose last attempt timed out fails with the timeout message naming the configured milliseconds |
| ApiClient.NetworkFailureMessage | src/services/apiClient.ts:183-189 | a request whose last attempt failed to fetch fails with the diagnostic naming the base URL and quoting the original message |
| ApiClient.GatewayTimeoutNotRetried | src/services/apiClient.ts:114-165 | a 504 response whose parsed, non-null body has no truthy `message` is not retried, because its message "Request failed with status 504" contains '4', and fails with that message |
| ApiClient.GatewayTimeoutWithMessageRetried | src/services/apiClient.ts:114-165 | a 504 response whose body's message is "Gateway Timeout" is retried when more than one attempt is allowed: the test reads the message, not the status |
| ApiClient.PlainFailureRetried | src/services/apiClient.ts:160-168 | a first attempt failing with a plain `Error` whose message has no '4' is retried when more than one attempt is allowed |
| ApiClient.NullErrorBodyNotRetried | src/services/apiClient.ts:114-168 | a non-OK response with a `null` body fails on the first attempt with the `TypeError` message of reading `message` from `null`, and is not retried |
| ApiClient.GatewayTimeoutMessage | src/services/apiClient.ts:114-165 | the 504 failure message contains the character '4' |
| ApiClient.AppendedParams | src/services/apiClient.ts:204-208 | the appended query has at most as many pairs as there are parameters |
| ApiClient.AppendedParamsSpec | src/services/apiClient.ts:204-208 | every parameter that is not undefined, null or '' is appended as `String(value)`, only those are, and the query is empty exactly when none is kept |
| ApiClient.AppendedParamsAppend | src/services/apiClient.ts:204-208 | the pairs appended for `ps + qs` are those for `ps` followed by those for `qs`, so the parameters' key order is kept |
| ApiClient.AppendedAllKept | src/services/apiClient.ts:204-208 | when every value is a number or a non-empty string, the k-th appended pair is the k-th key with `String(value)` |
| ApiClient.SearchParses | src/services/apiClient.ts:203-209 | `url.search` is empty, or '?' followed by a query that parses back to exactly the appended pairs |
| ApiClient.GetDuplicatesBasePath | src/services/apiClient.ts:203-212 | with parameters, the URL requested is origin, base path, base path again, endpoint and query; with a non-empty base path it differs from the intended URL (also line 48) |
| ApiClient.GetDuplicatesDefaultBasePath | src/services/apiClient.ts:203-212 | with the default base URL, `get("/sales-orders", {page: 0})` requests `http://localhost:8080/api/api/sales-orders?page=0` (also line 48) |
| ApiClient.CorrectedGetEndpoint | src/services/apiClient.ts:199-213 | the corrected `get` passes the endpoint then a query that parses back to exactly the kept parameters; without parameters it passes the endpoint itself |
| ApiClient.CorrectedGetRequestsIntendedUrl | src/services/apiClient.ts:199-213 | the corrected `get` requests base URL + endpoint + query, and agrees with the written one when there are no parameters (also line 48) |
| ApiClient.PageSerialize | src/services/apiClient.ts:206-209 | `URLSearchParams` serialises `page` = "0" as `page=0` |
| ApiClient.PageQuery | src/services/apiClient.ts:203-209 | the query of `{page: 0}` is `?page=0` |
| ApiClient.SentHeaders | src/services/apiClient.ts:54-63 | a caller's `headers` option replaces the merged header map, because `...options` is spread last; without it the default headers are sent |
| ApiClient.BodyOf | src/services/apiClient.ts:216-237 | `post`/`put`/`patch` send a body exactly when the data is truthy, and that body is its JSON text |
| ApiClient.Client.Request | src/services/apiClient.ts:43-197 | the retry loop returns the result, the number of attempts and the delays of `Run`, and every attempt makes the same `fetch` call to base URL + endpoint |
| ApiClient.Client.Get | src/services/apiClient.ts:199-213 | the same retry history as `Run`; every attempt requests base URL + the endpoint built from the kept parameters, with the GET verb and the default headers |
| ApiClient.Client.Post | src/services/apiClient.ts:216-221 | the retry history of `Run`; every attempt posts to base URL + endpoint with `BodyOf(data)` |
| ApiClient.Client.Put | src/services/apiClient.ts:224-229 | as `Post`, with the PUT verb |
| ApiClient.Client.Patch | src/services/apiClient.ts:232-237 | as `Post`, with the PATCH verb |
| ApiClient.Client.Delete | src/services/apiClient.ts:240-244 | the retry history of `Run`; every attempt sends DELETE with no body |
| ApiClient.Client.SetAuthToken | src/services/apiClient.ts:247-248 | only `Authorization` changes, to "Bearer " + token |
| ApiClient.Client.RemoveAuthToken | src/services/apiClient.ts:256-257 | only `Authorization` is removed |
| ApiClient.AuthTokenRoundTrip | src/services/apiClient.ts:247-257 | setting a token keeps every other header, and removing it restores a map that had none |
| AuthService.FailureResponse | src/services/authService.ts:75-79 | the failure answer has `success` false, the message, and a null `username` |
| AuthService.LoginErrorMessage | src/services/authService.ts:64-73 | a message containing "401", or "unauthorized" in any case, becomes the invalid-credentials text; other errors keep their message; a non-Error gives the generic text |
| AuthService.EncodedCredentials | src/services/authService.ts:154-161 | the stored record is the two Base64 encodings, and exists exactly when both inputs are Latin-1 (otherwise `btoa` throws) |
| AuthService.DecodedCredentials | src/services/authService.ts:213-228 | the empty pair unless both stored fields are non-empty |
| AuthService.StoreThenDecode | src/services/authService.ts:154-161 | after storing (u, p), the decoded credentials are (u, p) when both are non-empty, else the empty pair (also lines 213-228) |
| AuthService.ClearThenDecode | src/services/authService.ts:174-176 | after clearing, no credentials are stored and the decoded pair is empty (also lines 213-228) |
| AuthService.SessionInfo | src/services/authService.ts:124-149 | the backend's answer, or logged out with a null user when the call fails |
| AuthService.Auth.constructor | src/services/authService.ts:22-23 | the service works over the given storage |
| AuthService.Auth.Login | src/services/authService.ts:28-81 | the encoded credentials are posted to `/api/auth/login`; a non-null answer is returned, a rejection or a `null` answer (whose `success` cannot be read) becomes a failure with `LoginErrorMessage`; credentials are stored exactly when a non-null answer's `success` is truthy |
| AuthService.NullAnswerMessage | src/services/authService.ts:55-74 | the failure for a `null` answer carries the `TypeError`'s own message, since it names neither 401 nor "unauthorized" |
| AuthService.OwnLoginMessage | src/services/authService.ts:64-72 | an `Error` whose message has no '4' and no letter z keeps its own message |
| AuthService.Auth.Logout | src/services/authService.ts:86-119 | posts null to `/api/auth/logout`; the credentials are removed whether the call succeeds or fails |
| AuthService.Auth.StoreCredentials | src/services/authService.ts:154-169 | writes the encoded record under the credentials key, and changes nothing when `btoa` throws |
| AuthService.Auth.ClearCredentials | src/services/authService.ts:174-184 | removes only the credentials key |
| AuthService.LoginThenDecoded | src/services/authService.ts:55-57 | after a successful login, `hasStoredCredentials` holds and the decoded credentials are the ones entered (also lines 205-228) |
| SessionStorage.StoredCredentials | src/services/authService.ts:189-200 | the parsed stored item, or the empty record when nothing parseable is stored |
| SessionStorage.Storage.SetItem | src/services/authService.ts:161 | only that key changes, to the item written |
| SessionStorage.Storage.RemoveItem | src/services/authService.ts:176 | only that key is removed |
| MaterialCode.Transform | src/utils/materialCodeTransformer.ts:3-17 | keeps the length; a code longer than 2 that starts with "10" and ends with "1" becomes "20" + middle + "2"; any other code, the empty one included, is unchanged |
| MaterialCode.TransformAll | src/utils/materialCodeTransformer.ts:29-31 | same length, transformed element by element |
| MaterialCode.TransformChangesIff | src/utils/materialCodeTransformer.ts:9-24 | `shouldTransformMaterialCode` holds exactly when the transform changes the code |
| MaterialCode.TransformIdempotent | src/utils/materialCodeTransformer.ts:12 | transforming twice is transforming once |
| MaterialCode.UntransformTransform | src/utils/materialCodeTransformer.ts:9-13 | a rewritten code maps back to its original |
| MaterialCode.TransformInjective | src/utils/materialCodeTransformer.ts:9-13 | two codes that are rewritten are rewritten to different codes |
| SalesOrderService.NumberOr | src/services/salesOrderService.ts:34-35 | `n \|\| d`: undefined and 0 give the default |
| SalesOrderService.TextOr | src/services/salesOrderService.ts:36-37 | `s \|\| d`: undefined and '' give the default |
| SalesOrderService.GetSalesOrders | src/services/salesOrderService.ts:28-41 | a GET of `/sales-orders` whose parameter list starts with the filters, then four pagination entries |
| SalesOrderService.GetSalesOrdersQuery | src/services/salesOrderService.ts:32-38 | the query is the kept filters, then page, size, sort and direction, always sent, with 0, 20, `salesOrderNumber` and `asc` for falsy inputs |
| SalesOrderService.DefaultPagination | src/services/salesOrderService.ts:34-37 | no pagination gives page 0, size 20, `salesOrderNumber`, `asc`; size 0 is replaced like a missing size |
| SalesOrderService.SearchSalesOrders | src/services/salesOrderService.ts:74-85 | a GET of `/sales-orders/search` with exactly three parameters |
| SalesOrderService.SearchQuery | src/services/salesOrderService.ts:78-82 | the query is `q` unless empty, then page and size with the 0/20 defaults |
| SalesOrderService.OrderPath | src/services/salesOrderService.ts:47 | the path of one order starts with `/sales-orders/` |
| SalesOrderService.OrderPathNumber | src/services/salesOrderService.ts:47 | the order number can be read back from its path |
| SalesOrderService.OrderPathInjective | src/services/salesOrderService.ts:47-68 | distinct orders have distinct paths |
| SalesOrderService.GetSalesOrderByNumber | src/services/salesOrderService.ts:46-48 | a GET of the order's path without parameters |
| SalesOrderService.CreateSalesOrder | src/services/salesOrderService.ts:53-55 | a POST of the order to `/sales-orders` |
| SalesOrderService.UpdateSalesOrder | src/services/salesOrderService.ts:60-62 | a PUT of the changes to the order's path |
| SalesOrderService.DeleteSalesOrder | src/services/salesOrderService.ts:67-69 | a DELETE of the order's path |
| SalesOrderService.GetSalesOrdersByDeliveryWeek | src/services/salesOrderService.ts:90-92 | a GET of `/sales-orders/delivery-week/` followed by the week |
| SalesOrders.ActiveFilters | src/composables/useSalesOrders.ts:48-50 | exactly the filter entries whose value is neither '' nor undefined, no more entries than filters |
| SalesOrders.ClearedFormInactive | src/composables/useSalesOrders.ts:208-214 | after clearing, no filter is active (also lines 48-50) |
| SalesOrders.FindIndex | src/composables/useSalesOrders.ts:141 | the first index holding that order number, or none when no element has it |
| SalesOrders.Without | src/composables/useSalesOrders.ts:166 | keeps exactly the elements with another order number |
| SalesOrders.WithoutKeepsOthers | src/composables/useSalesOrders.ts:166 | the result is a subsequence of the list (the others stay in order) and every order with another number occurs as often as before, one with that number not at all |
| SalesOrders.SalesOrderList.constructor | src/composables/useSalesOrders.ts:9-30 | the initial state: no orders, page 0 of size 20, no error, the initial filters |
| SalesOrders.SalesOrderList.ClearError | src/composables/useSalesOrders.ts:38-40 | only the error is cleared |
| SalesOrders.SalesOrderList.FetchSalesOrders | src/composables/useSalesOrders.ts:43-74 | requests the active filters with the current page and size; success copies the page's content and counters, failure empties the list and sets the error; `loading` ends false |
| SalesOrders.SalesOrderList.BeginRequest | src/composables/useSalesOrders.ts:44-45 | every call starts loading with no error and is recorded after the earlier calls; nothing else changes |
| SalesOrders.SalesOrderList.ReceivePage | src/composables/useSalesOrders.ts:62-73 | a page answer replaces the list and all four counters; a failure empties the list, keeps the counters and records the thrown message or the fallback; loading ends |
| SalesOrders.SalesOrderList.FetchSalesOrderByNumber | src/composables/useSalesOrders.ts:77-89 | sets the current order, or clears it and sets the error |
| SalesOrders.SalesOrderList.SearchSalesOrders | src/composables/useSalesOrders.ts:92-114 | requests the search with the current page and size; success copies the page, failure empties the list and sets the error |
| SalesOrders.SalesOrderList.CreateSalesOrder | src/composables/useSalesOrders.ts:117-131 | the created order is put in front of the list; on failure the list is unchanged and the error set; page, size and the counters are unchanged |
| SalesOrders.SalesOrderList.UpdateSalesOrder | src/composables/useSalesOrders.ts:134-157 | the length is unchanged; only the first element with that number is replaced; the current order is replaced when it has that number; page, size and the counters are unchanged |
| SalesOrders.SalesOrderList.DeleteSalesOrder | src/composables/useSalesOrders.ts:160-177 | removes every element with that number, keeps the others in order and with their multiplicity (by `WithoutKeepsOthers`), and clears the current order when it matched; page, size and the counters are unchanged |
| SalesOrders.SalesOrderList.NextPage | src/composables/useSalesOrders.ts:180-185 | on the last page nothing changes at all; otherwise the page goes up by one and the list is fetched with the active filters and the size. The answer is shown as by `FetchSalesOrders`: the page's content and counters, or an empty list, the error and the old counters. |
| SalesOrders.SalesOrderList.PrevPage | src/composables/useSalesOrders.ts:187-192 | on the first page nothing changes at all; otherwise the page goes down by one and the list is fetched with the active filters and the size. The answer is shown as by `FetchSalesOrders`: the page's content and counters, or an empty list, the error and the old counters. |
| SalesOrders.SalesOrderList.GoToPage | src/composables/useSalesOrders.ts:194-199 | only when `0 <= p < totalPages` is the page set and fetched, otherwise nothing changes at all. The answer is shown as by `FetchSalesOrders`: the page's content and counters, or an empty list, the error and the old counters. |
| SalesOrders.SalesOrderList.ApplyFilters | src/composables/useSalesOrders.ts:202-205 | page 0, then a fetch with the active filters. The answer is shown as by `FetchSalesOrders`: the page's content and counters, or an empty list, the error and the old counters. |
| SalesOrders.SalesOrderList.ClearFilters | src/composables/useSalesOrders.ts:208-214 | every filter becomes '' except `completeDelivery`, which becomes undefined; page 0; the fetch sends no filter. The answer is shown as by `FetchSalesOrders`: the page's content and counters, or an empty list, the error and the old counters. |
| PlannedOrderService.GetCredentials | src/services/plannedOrderService.ts:16-34 | `Ok` exactly when both stored fields are truthy and `atob` decodes both, and then the pair of decoded fields; otherwise the missing-credentials error |
| PlannedOrderService.GetStoredCredentials | src/services/plannedOrderService.ts:16-34 | credentials stored by the authentication service read back as entered |
| PlannedOrderService.CombineDateTime | src/services/plannedOrderService.ts:39-44 | date + "T" + time + ":00": starts with the date and "T", ends with ":00", four characters longer |
| PlannedOrderService.CombineDateTimeAgrees | src/services/plannedOrderService.ts:39-44 | for an HH:mm time it agrees with the production-order service's `createLocalDateTime` |
| PlannedOrderService.PostStep | src/services/plannedOrderService.ts:49-106 | posts only with usable credentials, to the query of the Base64 credentials and the fields; succeeds exactly when it posts and the post succeeds; failures carry the prefix and the error's message |
| PlannedOrderService.DispatchPlannedOrder | src/services/plannedOrderService.ts:49-106 | posts to `/dispatchPlannedOrder` with the combined date-time; the success message names the order; a failure is the order's prefix followed by the missing-credentials message or the error's message, with the dispatch default for a non-`Error` |
| PlannedOrderService.DeallocatePlannedOrder | src/services/plannedOrderService.ts:111-176 | posts to `/deallocatePlannedOrder`; the success message names the order; a failure is the order's prefix followed by the missing-credentials message or the error's message, with the allocation default for a non-`Error` |
| PlannedOrderService.UpdatePlannedOrderDetails | src/services/plannedOrderService.ts:181-234 | posts to `/updatePlannedOrder`; the success message names the order; a failure is the order's prefix followed by the missing-credentials message or the error's message, with the update default for a non-`Error` |
| PlannedOrderService.PlanOrder | src/services/plannedOrderService.ts:239-290 | the update runs first; the dispatch runs exactly when the update succeeded; a failure is the last step's result; success gives the "planned" message |
| PlannedOrderService.PlanOrderSucceedsIff | src/services/plannedOrderService.ts:247-274 | an order is planned exactly when the credentials are usable and both posts succeed |
| PlannedOrderService.PlanOrderWithoutCredentials | src/services/plannedOrderService.ts:247-257 | without credentials nothing is posted, and the plan fails with the update's missing-credentials message (also lines 16-34) |
| PlannedOrderService.PlanOrderStopsAfterRejectedUpdate | src/services/plannedOrderService.ts:247-257 | a rejected update is returned unchanged and no dispatch is attempted |
| ProductionOrderService.TwoDigits | src/services/productionOrderService.ts:115-119 | a number below 100 pads to two characters that parse back to it |
| ProductionOrderService.FormatDateFields | src/services/productionOrderService.ts:113-122 | the backend text is the year then five two-digit fields, the month being `getMonth()+1`; the separators sit in place and every field reads back |
| ProductionOrderService.ReadDateText | src/services/productionOrderService.ts:113-122 | the layout `Y-MM-DDTHH:mm:ss` reads back to its six numbers |
| ProductionOrderService.CreateLocalDateTime | src/services/productionOrderService.ts:127-135 | starts with the date and "T" and always ends ":00" |
| ProductionOrderService.CreateLocalDateTimeMidnight | src/services/productionOrderService.ts:128 | an empty time gives midnight, `T00:00:00` |
| ProductionOrderService.CreateLocalDateTimeOfClock | src/services/productionOrderService.ts:130-134 | an `H:MM` or `HH:MM` time keeps its digits, with the hour padded to two |
| ProductionOrderService.CreateLocalDateTimeHourOnly | src/services/productionOrderService.ts:129-134 | a time without ':' is the hour alone, padded to two, with zero minutes and seconds ("8" gives `T08:00:00`) |
| ProductionOrderService.CreateLocalDateTimeOfParts | src/services/productionOrderService.ts:129-134 | a time with a ':' keeps its hour and minutes padded to two, an empty minute part becomes `00`, and any seconds are replaced by `00` ("10:30:45" gives `T10:30:00`) |
| ProductionOrderService.ClockParts | src/services/productionOrderService.ts:130 | splitting `h:m`, optionally followed by more ':'-separated parts, on ':' gives `h` and `m` first |
| ProductionOrderService.FormatDisplayTime | src/services/productionOrderService.ts:1258-1270 | the empty time gives "N/A"; a time without ':' is returned unchanged |
| ProductionOrderService.FormatDisplayTimePrefix | src/services/productionOrderService.ts:1258-1270 | a displayed time is a prefix of the input, with exactly one ':' when the input has two or more parts |
| ProductionOrderService.FormatDisplayTimeOfParts | src/services/productionOrderService.ts:1263-1266 | a time of two or more ':'-separated parts is shown as its first two, `a:b` |
| ProductionOrderService.FormatDisplayTimeIdempotent | src/services/productionOrderService.ts:1258-1270 | formatting a displayed time changes nothing |
| ProductionOrderService.GetCredentials | src/services/productionOrderService.ts:1204-1216 | "not found" unless both stored fields are truthy; `Ok` exactly when `atob` then decodes both, with the pair of decoded fields as value; otherwise `atob`'s error |
| ProductionOrderService.GetStoredCredentials | src/services/productionOrderService.ts:1204-1232 | credentials stored by the authentication service read back as entered |
| ProductionOrderService.AsParams | src/services/productionOrderService.ts:150-160 | the query pairs as `get` parameters, one for one |
| ProductionOrderService.ListOf | src/services/productionOrderService.ts:173 | a non-array answer becomes [] |
| ProductionOrderService.FetchError | src/services/productionOrderService.ts:185-191 | a failed list query throws "Failed to fetch <what>: " and the cause's message, or "Unknown error" |
| ProductionOrderService.PlainFetch | src/services/productionOrderService.ts:258-302 | the call made, and the list or the wrapped error |
| ProductionOrderService.CredentialedFetch | src/services/productionOrderService.ts:140-192 | the call is made exactly when the credentials read; its parameters start with the Base64 credentials; the answer's list or the wrapped error |
| ProductionOrderService.GetPlannedOrders | src/services/productionOrderService.ts:140-192 | queries `/getPlannedOrders`; a non-array answer gives [] |
| ProductionOrderService.GetPlannedOrdersBySupervisor | src/services/productionOrderService.ts:197-253 | queries `/getPlannedOrdersByProductionSupervisor`; a non-array answer gives [] |
| ProductionOrderService.GetProductionVersionsByMaterial | src/services/productionOrderService.ts:258-302 | queries `/getProductionVersionByMaterial` with material and plant, no credentials; a non-array answer gives [] |
| ProductionOrderService.GetProductionOrdersBySupervisor | src/services/productionOrderService.ts:307-363 | queries `/getProductionOrdersByProductionSupervisor`; a non-array answer gives [] |
| ProductionOrderService.GetProductionOrdersByMaterial | src/services/productionOrderService.ts:368-424 | queries `/getProductionOrdersByMaterial`; a non-array answer gives [] |
| ProductionOrderService.GetProductionSupervisors | src/services/productionOrderService.ts:426-456 | queries `/getProductionSupervisor` without parameters; a non-array answer gives [] |
| ProductionOrderService.GetWorkCentersBySupervisor | src/services/productionOrderService.ts:461-499 | queries `/getWorkCentersByProductionSupervisor`; a non-array answer gives [] |
| ProductionOrderService.QueryUrlParses | src/services/productionOrderService.ts:547-551 | the query of every posted URL parses back to exactly its pairs |
| ProductionOrderService.SentUrl | src/services/productionOrderService.ts:522-551 | a mutating call posts exactly when the credentials are stored, decode and are non-empty |
| ProductionOrderService.ApiErrorMessage | src/services/productionOrderService.ts:580-603 | an `Error` gives its message; a thrown primitive gives the default |
| ProductionOrderService.ClientFailureMessage | src/services/productionOrderService.ts:580-603 | every rejection of the client is an `Error`, so the message extracted is its message |
| ProductionOrderService.OrderNumber | src/services/productionOrderService.ts:572 | the order number is the answer's text, empty for null, and `toString()` of any other answer (a number's decimal numeral) |
| ProductionOrderService.ConvertPlannedOrder | src/services/productionOrderService.ts:504-604 | posts to `/convertPlannedOrder` exactly when the credentials are usable; success exactly when it posted and the post succeeded, with the new order number; otherwise the extracted failure message |
| ProductionOrderService.CreateFields | src/services/productionOrderService.ts:640-648 | the four fixed fields, then `productionVersion` exactly when it is given and non-empty |
| ProductionOrderService.CreateProductionOrder | src/services/productionOrderService.ts:609-710 | posts to `/createProductionOrder` with `CreateFields`; success exactly when posted and accepted |
| ProductionOrderService.UpdateProductionOrder | src/services/productionOrderService.ts:718-756 | posts the start date-time and `schedule` as "true"/"false"; the success message says planned or unplanned |
| ProductionOrderService.UpdateAttribute | src/services/productionOrderService.ts:775-861 | the common shape of the four attribute updates: posts only with usable credentials, success exactly when the post succeeds |
| ProductionOrderService.UpdateProductionVersion | src/services/productionOrderService.ts:775-861 | posts to `/updateProductionVersion`; the messages name the order and the version |
| ProductionOrderService.UpdateProductionOrderQuantity | src/services/productionOrderService.ts:866-952 | posts to `/updateProductionOrderQuantity`; the messages name the order and the quantity |
| ProductionOrderService.UpdateStorageLocation | src/services/productionOrderService.ts:957-1043 | posts to `/updateStorageLocation`; the messages name the order and the location |
| ProductionOrderService.UpdateProductionVersionForManufacturingOrder | src/services/productionOrderService.ts:1048-1134 | posts to `/updateProductionVersion` for a manufacturing order; the messages name it |
| ProductionOrderService.UnscheduleProductionOrder | src/services/productionOrderService.ts:1140-1199 | always sends `schedule=false`, with the start date-time built by `createLocalDateTime` from the time or "00:00" |
| ProductionOrderService.MissingCredentialsReported | src/services/productionOrderService.ts:1204-1216 | without stored credentials nothing is posted, and the failure is "not found" (also lines 524-526) |
| PlannedOrderConversion.TextOr | src/composables/usePlannedOrderConversion.ts:104 | `s \|\| d` for a text |
| PlannedOrderConversion.FormatDisplayIdempotent | src/composables/usePlannedOrderConversion.ts:171-177 | formatting an order or material for display twice is formatting once |
| PlannedOrderConversion.TrimToUpper | src/composables/usePlannedOrderConversion.ts:171-177 | the upper-case form of a trimmed text is trimmed |
| PlannedOrderConversion.Convert | src/composables/usePlannedOrderConversion.ts:79-82 | the service call succeeds exactly when usable credentials are stored and the backend accepts, with the service's success message and the new production order number; otherwise it fails with `ConversionFailure` |
| PlannedOrderConversion.ConversionFailure | src/services/productionOrderService.ts:579-602 | the failure message starts with the service's prefix and the planned order, so it is never empty |
| PlannedOrderConversion.StatusMessage | src/composables/usePlannedOrderConversion.ts:142-156 | in priority order: the success message (or the default), the last error, "Converting planned order...", else ""; non-empty exactly when one of those applies |
| PlannedOrderConversion.FinishedConversionStatus | src/composables/usePlannedOrderConversion.ts:84-108 | after a success: success, no error, the success message; after a failure: an error, shown as the status (also lines 142-168) |
| PlannedOrderConversion.ClearedStatus | src/composables/usePlannedOrderConversion.ts:26-50 | a just-reset dialog shows no success, no error and no message (also lines 136-168) |
| PlannedOrderConversion.Conversion.constructor | src/composables/usePlannedOrderConversion.ts:9-14 | the initial state: hidden, nothing selected, nothing recorded |
| PlannedOrderConversion.Conversion.OpenConversionDialog | src/composables/usePlannedOrderConversion.ts:26-37 | sets order and material, shows the dialog, clears the result, the error and the converting flag |
| PlannedOrderConversion.Conversion.CloseConversionDialog | src/composables/usePlannedOrderConversion.ts:39-50 | every field back to its initial value |
| PlannedOrderConversion.Conversion.ConvertPlannedOrder | src/composables/usePlannedOrderConversion.ts:52-124 | without credentials or a selected order, or with an empty trimmed type, returns false with the error and calls nothing; otherwise calls with the trimmed type, ends not converting and records the service's answer: the success message and order number, or a failure whose `ConversionFailure` message becomes the error (the unknown-reason default is never reached) |
| PlannedOrderConversion.Conversion.RunConversion | src/composables/usePlannedOrderConversion.ts:67-108 | the conversion ends not in progress with the service answer recorded; it succeeds exactly when usable credentials are stored and the backend accepts, recording the success message and order number; a failure records and shows the `ConversionFailure` message |
| PlannedOrderConversion.Conversion.HandlePlannedOrderClick | src/composables/usePlannedOrderConversion.ts:126-134 | without credentials only the error is set; otherwise the dialog opens |
| PlannedOrderConversion.Conversion.ResetConversionState | src/composables/usePlannedOrderConversion.ts:136-140 | clears the result, the error and the converting flag, and nothing else |
| SalesOrdersTable.ParseWeekOfLabel | src/composables/useSalesOrdersTable.ts:23-29 | "week/year" parses to (week, year) |
| SalesOrdersTable.ParseWeekWithoutYear | src/composables/useSalesOrdersTable.ts:23-29 | a label without a year has year 0 |
| SalesOrdersTable.WeekLeByKey | src/composables/useSalesOrdersTable.ts:30-38 | weeks are ordered by year, then by week |
| SalesOrdersTable.WeekLeTotalPreorder | src/composables/useSalesOrdersTable.ts:30-38 | the week order is total and transitive |
| SalesOrdersTable.SortedSalesOrdersByDate | src/composables/useSalesOrdersTable.ts:19-40 | a permutation of the input, sorted by the week order |
| SalesOrdersTable.SortedWeeksOrdered | src/composables/useSalesOrdersTable.ts:19-40 | every earlier week has a (year, week) no greater than a later one, and weeks with the same key keep their input order |
| SalesOrdersTable.FindWeek | src/composables/useSalesOrdersTable.ts:42-47 | the first week with that label, or none when no week has it |
| SalesOrdersTable.ActiveWeekData | src/composables/useSalesOrdersTable.ts:42-47 | with no tab, the first sorted week if any; otherwise the first sorted week with that label, as `find` returns it, or none when there is none |
| SalesOrdersTable.InsertDistinctSorted | src/composables/useSalesOrdersTable.ts:52-62 | adding to a sorted, duplicate-free list keeps it so |
| SalesOrdersTable.SortedDistinct | src/composables/useSalesOrdersTable.ts:52-75 | `Array.from(new Set(xs)).sort()`: the same members, sorted and without duplicates |
| SalesOrdersTable.StrictlySortedUnique | src/composables/useSalesOrdersTable.ts:52-75 | a sorted, duplicate-free list is determined by its members |
| SalesOrdersTable.AllItemKeys | src/composables/useSalesOrdersTable.ts:53-59 | exactly the keys of every order's `dynamicSoItems` |
| SalesOrdersTable.DynamicColumnKeys | src/composables/useSalesOrdersTable.ts:49-63 | sorted and duplicate-free; none without an active week; otherwise exactly the keys of its orders' items |
| SalesOrdersTable.TrimmedPlants | src/composables/useSalesOrdersTable.ts:69-73 | exactly the trimmed plants of the orders whose plant is not blank |
| SalesOrdersTable.AvailablePlants | src/composables/useSalesOrdersTable.ts:65-76 | sorted and duplicate-free; none without an active week; otherwise exactly the trimmed non-blank plants |
| SalesOrdersTable.AvailablePlantsTrimmed | src/composables/useSalesOrdersTable.ts:65-76 | every listed plant is non-empty and trimmed |
| SalesOrdersTable.FilteredOrdersMembers | src/composables/useSalesOrdersTable.ts:81-100 | an order is kept exactly when it is in the list, has the selected plant unless it is "All", and matches the search when the search is not blank |
| SalesOrdersTable.FilteredOrdersSubsequence | src/composables/useSalesOrdersTable.ts:81-100 | filtering keeps a subsequence of the week's list |
| SalesOrdersTable.LookupItem | src/composables/useSalesOrdersTable.ts:115-116 | the item stored under the key, or none when no entry has it |
| SalesOrdersTable.SortValueOf | src/composables/useSalesOrdersTable.ts:108-170 | a column compares numerically exactly when it is a numeric column |
| SalesOrdersTable.CompareValuesOrder | src/composables/useSalesOrdersTable.ts:172-186 | numbers compare by value and texts by their lower-case form, reversed for descending |
| SalesOrdersTable.ColumnOrderTotalPreorder | src/composables/useSalesOrdersTable.ts:103-190 | every column comparator is a total preorder, so the sort is well defined |
| SalesOrdersTable.SortedAndFilteredData | src/composables/useSalesOrdersTable.ts:78-193 | none without an active week; otherwise a permutation of the filtered orders, unchanged without a sort column, and sorted by the column otherwise |
| SalesOrdersTable.SortedAndFilteredMembers | src/composables/useSalesOrdersTable.ts:78-193 | holds exactly the kept orders; orders that compare equal keep their filtered order |
| SalesOrdersTable.CeilDiv | src/composables/useSalesOrdersTable.ts:345 | the ceiling of total/rows (also line 201) |
| SalesOrdersTable.TotalPages | src/composables/useSalesOrdersTable.ts:199-202 | 1 when there are no records, otherwise the ceiling of total/rows |
| SalesOrdersTable.PageAfterRowsChange | src/composables/useSalesOrdersTable.ts:344-349 | a page past the last page of a non-empty list becomes the last page, any other page stays, and the result never exceeds the page count |
| SalesOrdersTable.StartIndex | src/composables/useSalesOrdersTable.ts:204-206 | from page 1 on, the first index `(page-1)*rows` is not negative |
| SalesOrdersTable.EndIndex | src/composables/useSalesOrdersTable.ts:208-212 | `min(start + rows, total)` |
| SalesOrdersTable.Slice | src/composables/useSalesOrdersTable.ts:219 | `Array.prototype.slice`: never longer than the input |
| SalesOrdersTable.SliceWindow | src/composables/useSalesOrdersTable.ts:219 | from a non-negative start, the slice is the window clamped to the data |
| SalesOrdersTable.PaginatedData | src/composables/useSalesOrdersTable.ts:214-220 | at most `rows` records; from page 1 on, the slice from `(page-1)*rows` to `min(start+rows, total)` |
| SalesOrdersTable.PageAt | src/composables/useSalesOrdersTable.ts:214-220 | the k-th record of page p is record `(p-1)*rows + k` |
| SalesOrdersTable.PagesCoverRecords | src/composables/useSalesOrdersTable.ts:199-220 | every record lies on page `i/rows + 1`, which is one of `totalPages` |
| SalesOrdersTable.Display | src/composables/useSalesOrdersTable.ts:222-234 | from page 1 on, start is 0 exactly when there are no records; with records it is `startIndex+1`; in range the shown window lies within the records |
| SalesOrdersTable.DynamicCount | src/composables/useSalesOrdersTable.ts:314-319 | counts at most every order |
| SalesOrdersTable.PlantSet | src/composables/useSalesOrdersTable.ts:321-324 | exactly the plants of the data, no more than there are orders |
| SalesOrdersTable.UniquePlants | src/composables/useSalesOrdersTable.ts:321-324 | at most the number of orders, and 0 exactly when there are none |
| SalesOrdersTable.FooterIgnoresSort | src/composables/useSalesOrdersTable.ts:279-324 | totals, counts and the plant count do not depend on the sort order |
| SalesOrdersTable.Table.constructor | src/composables/useSalesOrdersTable.ts:11-16 | the initial filter, plant, tab and sort state |
| SalesOrdersTable.Table.SortBy | src/composables/useSalesOrdersTable.ts:241-250 | the same column flips the direction, another column starts ascending; page 1 either way; nothing else changes |
| SalesOrdersTable.Table.ResetSort | src/composables/useSalesOrdersTable.ts:252-256 | no sort column, ascending, page 1; the data are then the filtered orders in their own order |
| SalesOrdersTable.Table.GoToPage | src/composables/useSalesOrdersTable.ts:258-263 | the page changes only to one in `1..totalPages`; an in-range page stays in range; nothing else changes |
| SalesOrdersTable.Table.SetActiveWeekTab | src/composables/useSalesOrdersTable.ts:265-272 | selects the tab, resets plant, search, sort and page; the data are then the whole week's list |
| SalesOrdersTable.Table.ApplyPlantFilter | src/composables/useSalesOrdersTable.ts:274-276 | only the page changes, to 1 |
| SalesOrdersTable.Table.SetGlobalFilterValue | src/composables/useSalesOrdersTable.ts:336-338 | a changed search returns to page 1 |
| SalesOrdersTable.Table.SetSelectedPlant | src/composables/useSalesOrdersTable.ts:340-342 | a changed plant returns to page 1 |
| SalesOrdersTable.Table.SetRows | src/composables/useSalesOrdersTable.ts:344-349 | a new page size moves a page past the end back to the last page, so the page stays within the records |
| Sorting.FilterMembers | src/composables/useSalesOrdersTable.ts:84-100 | `filter` keeps exactly the members satisfying the predicate |
| Sorting.FilterSubsequence | src/composables/useSalesOrdersTable.ts:84-100 | `filter` keeps a subsequence |
| Sorting.FilterMultiplicity | src/composables/useSalesOrdersTable.ts:84-100 | `filter` keeps every occurrence of a satisfying element and no occurrence of any other |
| Sorting.FilterFilter | src/composables/useSalesOrdersTable.ts:84-100 | two filters in a row are one filter by both predicates |
| Sorting.SortBy | src/composables/useSalesOrdersTable.ts:103-190 | the sort is a permutation (also lines 20-39) |
| Sorting.SortBySorted | src/composables/useSalesOrdersTable.ts:103-190 | under a total preorder the result is sorted (also lines 20-39) |
| Sorting.SortByStable | src/composables/useSalesOrdersTable.ts:103-190 | equivalent elements keep their relative order (also lines 20-39) |
| Sorting.SumSortBy | src/composables/useSalesOrdersTable.ts:279-305 | a sum by `reduce` does not depend on the order |
| Sorting.FilterLengthSortBy | src/composables/useSalesOrdersTable.ts:314-319 | a count by `filter` does not depend on the order |
| Strings.SplitJoin | src/services/productionOrderService.ts:1262-1265 | joining the parts of `split` gives the text back; there is one more part than separators, and no part holds one (also line 130) |
| Strings.JoinSplit | src/services/productionOrderService.ts:1262-1265 | splitting parts joined by a separator they do not contain gives the parts back |
| Strings.TrimSpec | src/composables/usePlannedOrderConversion.ts:22 | `trim` removes exactly the leading and trailing whitespace |
| Strings.TrimEmpty | src/composables/usePlannedOrderConversion.ts:60 | a text trims to empty exactly when it is all whitespace (also line 22) |
| Strings.TrimIdempotent | src/composables/useSalesOrdersTable.ts:70-71 | trimming twice is trimming once |
| Strings.PadStart | src/services/productionOrderService.ts:115-119 | `padStart` pads on the left to the width and never truncates |
| Strings.CaseMappingIdempotent | src/composables/useSalesOrdersTable.ts:90 | lower-casing and upper-casing twice is doing it once |
| Strings.ParseIntToString | src/composables/useSalesOrdersTable.ts:26-27 | `parseInt(String(n))` is n |
| Strings.ParseIntOfDigits | src/composables/useSalesOrdersTable.ts:26-27 | `parseInt` of a decimal numeral without leading zeros is its value |
| Strings.LexLessTransitive | src/composables/useSalesOrdersTable.ts:61-75 | the string order of `sort()` is transitive |
| Strings.LexLessTotal | src/composables/useSalesOrdersTable.ts:61-75 | any two distinct strings are ordered |
| Base64.FromToSextets | src/services/authService.ts:157-158 | the 6-bit groups of a byte string give the bytes back (also lines 219-220) |
| Base64.Btoa | src/services/authService.ts:157-158 | `btoa` succeeds exactly on Latin-1 text, and throws `InvalidCharacterError` otherwise |
| Base64.DecodeEncodeBytes | src/services/authService.ts:157-158 | decoding an encoding gives the bytes back (also lines 219-220) |
| Base64.Atob | src/services/authService.ts:219-220 | `atob` yields Latin-1 text, or throws `InvalidCharacterError` |
| Base64.AtobBtoa | src/services/authService.ts:157-158 | `atob(btoa(s)) == s` for Latin-1 text (also lines 219-220) |
| Base64.BtoaInjective | src/services/authService.ts:157-158 | distinct texts have distinct encodings |
| Utf8.DecodeEncode | src/services/productionOrderService.ts:547-551 | decoding the UTF-8 encoding of a text gives it back |
| FormUrl.DecodeEncode | src/services/productionOrderService.ts:547-551 | a percent-encoded component decodes back to itself |
| FormUrl.ParseSerialize | src/services/productionOrderService.ts:547-551 | `URLSearchParams` text parses back to its pairs |
| FormUrl.SerializeInjective | src/services/apiClient.ts:206-209 | distinct pair lists have distinct query strings |
| Js.MessageOr | src/composables/useSalesOrders.ts:70-71 | `err instanceof Error ? err.message : default` |
| Js.Lookup | src/services/apiClient.ts:114 | the value of a property, or none when no field has that name |
| Js.NullPropertyError | src/services/apiClient.ts:116 | reading a property of `null` throws a `TypeError` whose message names the property |
| Js.ReadProperty | src/services/apiClient.ts:116 | `v.key` throws exactly when `v` is `null`, with `NullPropertyError(key)`; otherwise it is the property lookup |
| Js.ReadQuote | src/services/productionOrderService.ts:593 | the JSON text of a string reads back to it |
| Js.QuoteInjective | src/services/productionOrderService.ts:593 | distinct strings have distinct JSON texts |

## Left out

- Console logging and the `DEBUG_MODE` branches. They have no effect on results.
- `fetch`, `AbortController` and timers. They are replaced by the per-attempt `Outcome` data and the recorded delays. A timeout is the `TimedOut` outcome, and the 2-second auto-close of the conversion dialog is not modelled.
- Concurrency between independent calls. Vue reactivity scheduling is also left out: a watcher is the setter method that triggers it (`SetGlobalFilterValue`, `SetSelectedPlant`, `SetRows`).
- `healthCheck`, `testConnection`, `testCORS`, `checkApiHealth`, `testCORSConfiguration`, `getBaseURL` and `getConfig`. They are diagnostics, not part of the request logic.
- `getSalesOrdersStats`. It is one more GET without parameters.
- `debugConversionState` and `isConversionInProgress`. The first is logging; the second is the `isConverting` field itself.
- `formatDisplayDate`, `formatQuantity`, `formatNumber` and `toLocaleString`. These are locale formatting.
- JavaScript `Number`, floating point and `Number()` coercion. Quantities, statuses and JSON numbers are integers.
- The totals of the sales-order table (`getTotalRequested` and the rest) are sums of integers. The string concatenation JavaScript would perform on a non-numeric field is not modelled.
- `Date` getters. A date is given as its integer fields.
- `toLowerCase`/`toUpperCase` map only ASCII letters. String order is by code point rather than by UTF-16 code unit.
- `Object.keys`/`Object.entries` order is the order of the entries as given. Keys are assumed distinct where `Object.values` is taken.
- URL normalisation by `new URL` (dot segments, percent-encoding in the path) is not modelled. The path is taken as written.
- JSON `null` stored in `sessionStorage` reads as a record without fields. Errors thrown by `setItem` (quota) are not modelled.
- `SalesOrdersTable.Table.SetRows`: `rows` is a positive integer, so a zero or negative page size is not modelled.
- `planOrder`'s outer `catch` and the `catch` of `convertPlannedOrder` in the conversion composable are unreachable. The services they call never reject, so neither is modelled.
- The `try`/`catch` around the table sort is unreachable. Comparing numbers or strings never throws.
- `ProductionOrderService.ApiErrorMessage`: for a thrown object it states only the `Error` and primitive cases. The `response.data` branches follow the source but have no separate ensures.
- `AuthService.Auth.GetStoredCredentials`, `HasStoredCredentials` and `GetDecodedCredentials` have no ensures of their own. They read `SessionStorage.StoredCredentials`, `SessionStorage.HasBothFields` and `AuthService.DecodedCredentials`, whose contracts and lemmas are listed above.
- `SalesOrders.SalesOrderList.IsEmpty` is `!loading && !hasData && !hasError` as written, with no separate contract.
- `ApiClient.Client.Get`: the base URL is taken to be absolute. With parameters and a relative base URL, ``new URL(`${this.baseURL}${endpoint}`)`` (one argument, no base) throws before any attempt is made, and that case is not modelled.
- `ApiClient.Client.Get`: an endpoint that already carries a `?` query or a `#` fragment is not modelled. `new URL` would parse it, while the model appends the parameters to the endpoint as written.
- `SalesOrderService.GetSalesOrders`: a filter named `page`, `size`, `sort` or `direction` is not modelled. The object spread would keep one entry for such a key, in the filter's position, with the pagination value; the model sends both entries. The filters the composables build never use these names.
- `ProductionOrderService.UpdateProductionOrder`: the default `schedule = true` is not modelled as a default. A call that omits `schedule` is the model's call with `true`.

## Findings

| source | as written | input that shows it | evidently intended | confidence | as-written member | corrected member |
|---|---|---|---|---|---|---|
| src/services/apiClient.ts:203-212 | with parameters, `get` passes `url.pathname + url.search` to `request`, and `request` prefixes `baseURL` again, so the base path appears twice | default base URL `http://localhost:8080/api`, `get("/sales-orders", {page: 0})` requests `http://localhost:8080/api/api/sales-orders?page=0` | request `baseURL + endpoint + search`, with the base path once | not executed | ApiClient.GetDuplicatesDefaultBasePath | ApiClient.CorrectedGetEndpoint |
