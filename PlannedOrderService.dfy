/** The planned-order service (`src/services/plannedOrderService.ts`):
    dispatching, allocating and updating a planned order, and `planOrder`,
    which updates and then dispatches.  Every call resolves to a result;
    `post` is what `apiClient.post` resolves or rejects with. */
module PlannedOrderService {
  import opened Common
  import opened Strings
  import opened Js
  import opened Base64
  import opened SessionStorage
  import FormUrl
  import POS = ProductionOrderService

  const MissingCredentialsMessage: string := "Липсват креденциали за вход"

  /** `getCredentials()`: both stored fields decoded; every failure on the
      way (no item, no JSON, a missing field, a field `atob` rejects) is
      caught and replaced by the one "missing credentials" error. */
  function GetCredentials(items: map<string, StoredItem>): (r: Result<Credentials, Thrown>)
    ensures r.Err? ==> r.error == PlainError(MissingCredentialsMessage)
    ensures !HasBothFields(items) ==> r.Err?
    ensures r.Ok? ==> IsLatin1(r.value.username) && IsLatin1(r.value.password)
    ensures var stored := StoredCredentials(items);
      var u := Property(stored, "username");
      var p := Property(stored, "password");
      (r.Ok? <==> HasBothFields(items) && Atob(ToStr(u.value)).Ok? && Atob(ToStr(p.value)).Ok?)
      && (r.Ok? ==> r.value == Credentials(Atob(ToStr(u.value)).value, Atob(ToStr(p.value)).value))
  {
    var stored := StoredCredentials(items);
    var u := Property(stored, "username");
    var p := Property(stored, "password");
    if TruthyOpt(u) && TruthyOpt(p) then
      match (Atob(ToStr(u.value)), Atob(ToStr(p.value)))
      case (Ok(du), Ok(dp)) => Ok(Credentials(du, dp))
      case _ => Err(PlainError(MissingCredentialsMessage))
    else Err(PlainError(MissingCredentialsMessage))
  }

  /** The credentials as the authentication service stores them read back as
      the plain user name and password. */
  lemma GetStoredCredentials(items: map<string, StoredItem>, username: string, password: string)
    requires IsLatin1(username) && IsLatin1(password) && username != "" && password != ""
    ensures var after := items[CredentialsKey := Parsed(CredentialsRecord(Btoa(username).value, Btoa(password).value))];
      GetCredentials(after) == Ok(Credentials(username, password))
  {
    var u := Btoa(username).value;
    var p := Btoa(password).value;
    StoredRecord(items, u, p);
    AtobBtoa(username);
    AtobBtoa(password);
    assert ToStr(JStr(u)) == u && ToStr(JStr(p)) == p;
  }

  /** `combineDateTime(date, time)`: the backend's `LocalDateTime` text. */
  function CombineDateTime(date: string, time: string): (r: string)
    ensures StartsWith(r, date + "T") && EndsWith(r, ":00")
    ensures |r| == |date| + |time| + 4
  {
    POS.Framed(date + "T", time, ":00");
    date + "T" + time + ":00"
  }

  /** For an `HH:mm` time the shortcut agrees with the production-order
      service's `createLocalDateTime`. */
  lemma CombineDateTimeAgrees(date: string, hh: string, mm: string)
    requires |hh| == 2 && |mm| == 2 && ':' !in hh && ':' !in mm
    ensures CombineDateTime(date, hh + ":" + mm) == POS.CreateLocalDateTime(date, hh + ":" + mm)
  {
    assert PadStart(hh, 2, '0') == hh;
    POS.CreateLocalDateTimeOfClock(date, hh, mm);
    Regroup(date + "T", hh, ":", mm, ":00");
  }

  lemma Regroup(a: string, b: string, c: string, d: string, e: string)
    ensures a + (b + c + d) + e == a + b + c + d + e
  {
  }

  /** `UpdatePlannedOrderResponse` */
  datatype UpdateResponse = UpdateResponse(success: bool, message: string)

  /** One call: the URL it posted to, if it got that far, and its result. */
  datatype Call = Call(url: Option<string>, response: UpdateResponse)

  /** The credentials decode and are both non-empty. */
  predicate CredentialsUsable(items: map<string, StoredItem>) {
    var c := GetCredentials(items);
    c.Ok? && c.value.username != "" && c.value.password != ""
  }

  /** The shape every call of this service has: read the credentials, post
      to `path` with the Base64-encoded credentials followed by `fields`,
      and catch every error into a failed result. */
  function PostStep(items: map<string, StoredItem>, path: string, fields: seq<FormUrl.Pair>,
                    success: string, failurePrefix: string, default: string, post: Result<Json, Thrown>): (c: Call)
    ensures c.url.Some? <==> CredentialsUsable(items)
    ensures c.url.Some? ==> c.url.value == POS.QueryUrl(path, POS.CredentialPairs(GetCredentials(items).value) + fields)
    ensures c.response.success <==> CredentialsUsable(items) && post.Ok?
    ensures c.response.success ==> c.response.message == success
    ensures !CredentialsUsable(items) ==> c.response.message == failurePrefix + MissingCredentialsMessage
    ensures CredentialsUsable(items) && post.Err? ==> c.response.message == failurePrefix + MessageOr(post.error, default)
  {
    var credentials := GetCredentials(items);
    if !CredentialsUsable(items) then
      Call(None, UpdateResponse(false, failurePrefix + MissingCredentialsMessage))
    else
      var url := POS.QueryUrl(path, POS.CredentialPairs(credentials.value) + fields);
      match post
      case Ok(_) => Call(Some(url), UpdateResponse(true, success))
      case Err(e) => Call(Some(url), UpdateResponse(false, failurePrefix + MessageOr(e, default)))
  }

  /** `dispatchPlannedOrder(plannedOrder, date, time)` */
  function DispatchPlannedOrder(items: map<string, StoredItem>, plannedOrder: string, date: string, time: string,
                                post: Result<Json, Thrown>): (c: Call)
    ensures c.url.Some? <==> CredentialsUsable(items)
    ensures c.response.success <==> CredentialsUsable(items) && post.Ok?
    ensures c.url.Some? ==> c.url.value == POS.QueryUrl("/dispatchPlannedOrder",
      POS.CredentialPairs(GetCredentials(items).value)
      + [("plannedOrder", plannedOrder), ("dispatchTime", CombineDateTime(date, time))])
    ensures c.response.success ==> c.response.message == "Планираната поръчка " + plannedOrder + " беше успешно диспечирана"
    ensures !c.response.success ==> StartsWith(c.response.message, "Неуспешно диспечиране на поръчка " + plannedOrder + ": ")
    ensures !CredentialsUsable(items) ==> c.response.message == "Неуспешно диспечиране на поръчка " + plannedOrder + ": " + MissingCredentialsMessage
    ensures CredentialsUsable(items) && post.Err? ==> c.response.message == "Неуспешно диспечиране на поръчка " + plannedOrder + ": " + MessageOr(post.error, "Възникна неочаквана грешка при диспечирането")
  {
    var prefix := "Неуспешно диспечиране на поръчка " + plannedOrder + ": ";
    var c := PostStep(items, "/dispatchPlannedOrder",
      [("plannedOrder", plannedOrder), ("dispatchTime", CombineDateTime(date, time))],
      "Планираната поръчка " + plannedOrder + " беше успешно диспечирана",
      prefix, "Възникна неочаквана грешка при диспечирането", post);
    assert !c.response.success ==> exists tail :: c.response.message == prefix + tail;
    c
  }

  /** `deallocatePlannedOrder(plannedOrder, date, time)` */
  function DeallocatePlannedOrder(items: map<string, StoredItem>, plannedOrder: string, date: string, time: string,
                                  post: Result<Json, Thrown>): (c: Call)
    ensures c.url.Some? <==> CredentialsUsable(items)
    ensures c.response.success <==> CredentialsUsable(items) && post.Ok?
    ensures c.url.Some? ==> c.url.value == POS.QueryUrl("/deallocatePlannedOrder",
      POS.CredentialPairs(GetCredentials(items).value)
      + [("plannedOrder", plannedOrder), ("dispatchTime", CombineDateTime(date, time))])
    ensures c.response.success ==> c.response.message == "Планираната поръчка " + plannedOrder + " беше успешно алокирана"
    ensures !c.response.success ==> StartsWith(c.response.message, "Неуспешно алокиране на поръчка " + plannedOrder + ": ")
    ensures !CredentialsUsable(items) ==> c.response.message == "Неуспешно алокиране на поръчка " + plannedOrder + ": " + MissingCredentialsMessage
    ensures CredentialsUsable(items) && post.Err? ==> c.response.message == "Неуспешно алокиране на поръчка " + plannedOrder + ": " + MessageOr(post.error, "Възникна неочаквана грешка при алокирането")
  {
    var prefix := "Неуспешно алокиране на поръчка " + plannedOrder + ": ";
    var c := PostStep(items, "/deallocatePlannedOrder",
      [("plannedOrder", plannedOrder), ("dispatchTime", CombineDateTime(date, time))],
      "Планираната поръчка " + plannedOrder + " беше успешно алокирана",
      prefix, "Възникна неочаквана грешка при алокирането", post);
    assert !c.response.success ==> exists tail :: c.response.message == prefix + tail;
    c
  }

  /** `updatePlannedOrderDetails(plannedOrder, productionVersion, quantity)` */
  function UpdatePlannedOrderDetails(items: map<string, StoredItem>, plannedOrder: string, productionVersion: string,
                                     quantity: string, post: Result<Json, Thrown>): (c: Call)
    ensures c.url.Some? <==> CredentialsUsable(items)
    ensures c.response.success <==> CredentialsUsable(items) && post.Ok?
    ensures c.url.Some? ==> c.url.value == POS.QueryUrl("/updatePlannedOrder",
      POS.CredentialPairs(GetCredentials(items).value)
      + [("plannedOrder", plannedOrder), ("productionVersion", productionVersion), ("quantity", quantity)])
    ensures c.response.success ==> c.response.message == "Планираната поръчка " + plannedOrder + " беше успешно актуализирана"
    ensures !c.response.success ==> StartsWith(c.response.message, "Неуспешна актуализация на поръчка " + plannedOrder + ": ")
    ensures !CredentialsUsable(items) ==> c.response.message == "Неуспешна актуализация на поръчка " + plannedOrder + ": " + MissingCredentialsMessage
    ensures CredentialsUsable(items) && post.Err? ==> c.response.message == "Неуспешна актуализация на поръчка " + plannedOrder + ": " + MessageOr(post.error, "Възникна неочаквана грешка при актуализацията")
  {
    var prefix := "Неуспешна актуализация на поръчка " + plannedOrder + ": ";
    var c := PostStep(items, "/updatePlannedOrder",
      [("plannedOrder", plannedOrder), ("productionVersion", productionVersion), ("quantity", quantity)],
      "Планираната поръчка " + plannedOrder + " беше успешно актуализирана",
      prefix, "Възникна неочаквана грешка при актуализацията", post);
    assert !c.response.success ==> exists tail :: c.response.message == prefix + tail;
    c
  }

  /** What `planOrder` did: the calls it made, in order, and its result. */
  datatype Plan = Plan(calls: seq<Call>, response: UpdateResponse)

  /** `planOrder(...)`: update the details first; only when that succeeds,
      dispatch; only when both succeed, report the order planned.  A failed
      step's result is returned unchanged.  (Neither step ever throws, so the
      source's own `catch` block cannot run.) */
  function PlanOrder(items: map<string, StoredItem>, plannedOrder: string, date: string, time: string,
                     productionVersion: string, quantity: string,
                     updatePost: Result<Json, Thrown>, dispatchPost: Result<Json, Thrown>): (p: Plan)
    ensures 1 <= |p.calls| <= 2
    ensures p.calls[0] == UpdatePlannedOrderDetails(items, plannedOrder, productionVersion, quantity, updatePost)
    ensures |p.calls| == 2 <==> p.calls[0].response.success
    ensures |p.calls| == 2 ==> p.calls[1] == DispatchPlannedOrder(items, plannedOrder, date, time, dispatchPost)
    ensures !p.response.success ==> p.response == p.calls[|p.calls| - 1].response
    ensures p.response.success ==> p.response.message == "Планираната поръчка " + plannedOrder + " беше успешно планирана"
  {
    var update := UpdatePlannedOrderDetails(items, plannedOrder, productionVersion, quantity, updatePost);
    if !update.response.success then Plan([update], update.response)
    else
      var dispatch := DispatchPlannedOrder(items, plannedOrder, date, time, dispatchPost);
      if !dispatch.response.success then Plan([update, dispatch], dispatch.response)
      else Plan([update, dispatch], UpdateResponse(true, "Планираната поръчка " + plannedOrder + " беше успешно планирана"))
  }

  /** An order is planned exactly when the credentials are usable and both
      posts succeed. */
  lemma PlanOrderSucceedsIff(items: map<string, StoredItem>, plannedOrder: string, date: string, time: string,
                             productionVersion: string, quantity: string,
                             updatePost: Result<Json, Thrown>, dispatchPost: Result<Json, Thrown>)
    ensures PlanOrder(items, plannedOrder, date, time, productionVersion, quantity, updatePost, dispatchPost).response.success
      <==> CredentialsUsable(items) && updatePost.Ok? && dispatchPost.Ok?
  {
  }

  /** Without stored credentials nothing is posted, and the plan fails with
      the update step's "missing credentials" message. */
  lemma PlanOrderWithoutCredentials(items: map<string, StoredItem>, plannedOrder: string, date: string, time: string,
                                    productionVersion: string, quantity: string,
                                    updatePost: Result<Json, Thrown>, dispatchPost: Result<Json, Thrown>)
    requires !HasBothFields(items)
    ensures var p := PlanOrder(items, plannedOrder, date, time, productionVersion, quantity, updatePost, dispatchPost);
      p.calls == [Call(None, p.response)]
      && p.response == UpdateResponse(false,
        "Неуспешна актуализация на поръчка " + plannedOrder + ": " + MissingCredentialsMessage)
  {
  }

  /** When the update is rejected the dispatch is never attempted, and the
      plan reports the rejection's own message. */
  lemma PlanOrderStopsAfterRejectedUpdate(items: map<string, StoredItem>, plannedOrder: string, date: string,
                                          time: string, productionVersion: string, quantity: string,
                                          updatePost: Result<Json, Thrown>, dispatchPost: Result<Json, Thrown>)
    requires CredentialsUsable(items) && updatePost.Err? && updatePost.error.IsError()
    ensures var p := PlanOrder(items, plannedOrder, date, time, productionVersion, quantity, updatePost, dispatchPost);
      |p.calls| == 1 && p.calls[0].url.Some?
      && p.response.message == "Неуспешна актуализация на поръчка " + plannedOrder + ": " + updatePost.error.message
  {
  }
}
