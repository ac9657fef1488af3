/** The planned-order conversion dialog (`src/composables/usePlannedOrderConversion.ts`):
    which order is selected, whether the dialog is open, whether a
    conversion is running, and its last result or error.  The stored
    credentials are passed to the operations that consult them, and the
    conversion's own request and answer are those of
    `ProductionOrderService.ConvertPlannedOrder`. */
module PlannedOrderConversion {
  import opened Common
  import opened Strings
  import opened Js
  import opened SessionStorage
  import POS = ProductionOrderService

  const NotConvertibleMessage: string := "Cannot convert planned order: Missing credentials or planned order"
  const TypeRequiredMessage: string := "Manufacturing Order Type is required"
  const UnknownFailureMessage: string := "Conversion failed for unknown reason"
  const CredentialsRequiredMessage: string := "SAP credentials are required to convert planned orders"
  const CompletedMessage: string := "Conversion completed successfully"
  const ConvertingMessage: string := "Converting planned order..."

  /** `x || d` for a text. */
  function TextOr(s: string, d: string): (r: string)
    ensures s != "" ==> r == s
    ensures s == "" ==> r == d
  {
    if s != "" then s else d
  }

  /** `formatPlannedOrderDisplay` and `formatMaterialDisplay`. */
  function FormatDisplay(s: string): string {
    ToUpper(Trim(s))
  }

  lemma UpperCharWhitespace(c: char)
    ensures IsWhitespace(UpperChar(c)) <==> IsWhitespace(c)
  {
  }

  /** Upper-casing keeps a trimmed text trimmed. */
  lemma TrimToUpper(t: string)
    requires Trim(t) == t
    ensures Trim(ToUpper(t)) == ToUpper(t)
  {
    var u := ToUpper(t);
    TrimSpec(t);
    if |u| > 0 {
      UpperCharWhitespace(t[0]);
      UpperCharWhitespace(t[|t| - 1]);
      assert TrimStart(u) == u;
      assert TrimEnd(u) == u;
    }
  }

  /** Formatting a formatted text changes nothing. */
  lemma FormatDisplayIdempotent(s: string)
    ensures FormatDisplay(FormatDisplay(s)) == FormatDisplay(s)
  {
    TrimIdempotent(s);
    TrimToUpper(Trim(s));
    CaseMappingIdempotent(Trim(s));
  }

  /** The message of a failed conversion of `plannedOrder`: the service's
      prefix, then the stored credentials' error, the empty-credentials
      message or the client's error message. */
  function ConversionFailure(items: map<string, StoredItem>, plannedOrder: string, post: Result<Json, Thrown>): (m: string)
    requires !(POS.CredentialsUsable(items) && post.Ok?)
    ensures StartsWith(m, POS.ConvertFailedPrefix + plannedOrder) && m != ""
  {
    var m := POS.ConvertFailedPrefix + plannedOrder + ": "
      + POS.ApiErrorMessage(POS.FailureCause(items, POS.EmptyCredentialsMessage, post), POS.ConvertFailedDefault);
    assert (POS.ConvertFailedPrefix + plannedOrder + ": ")[..|POS.ConvertFailedPrefix + plannedOrder|] == POS.ConvertFailedPrefix + plannedOrder;
    m
  }

  /** The service call of a conversion: it succeeds exactly when usable
      credentials are stored and the backend accepts the request, with the
      service's success message and the new production order's number, and
      otherwise fails with `ConversionFailure`. */
  method Convert(items: map<string, StoredItem>, plannedOrder: string, manufacturingOrderType: string,
                 post: Result<Json, Thrown>)
    returns (result: POS.OrderResponse)
    ensures result.success <==> POS.CredentialsUsable(items) && post.Ok?
    ensures result.success ==> result == POS.OrderResponse(true,
      POS.ConvertedPrefix + plannedOrder + POS.ConvertedInfix + POS.OrderNumber(post.value), Some(POS.OrderNumber(post.value)))
    ensures !result.success ==> result == POS.OrderResponse(false, ConversionFailure(items, plannedOrder, post), None)
  {
    var url;
    url, result := POS.ConvertPlannedOrder(items, plannedOrder, manufacturingOrderType, post);
  }

  /** `hasConversionError`: an error is recorded or the last result failed. */
  predicate HasConversionError(conversionResult: Option<POS.OrderResponse>, lastConversionError: string) {
    lastConversionError != "" || (conversionResult.Some? && !conversionResult.value.success)
  }

  /** `hasConversionSuccess` */
  predicate HasConversionSuccess(conversionResult: Option<POS.OrderResponse>) {
    conversionResult.Some? && conversionResult.value.success
  }

  /** `getConversionStatusMessage()`: the success message first, then the
      last error, then the progress note, else nothing. */
  function StatusMessage(conversionResult: Option<POS.OrderResponse>, lastConversionError: string, isConverting: bool): (m: string)
    ensures HasConversionSuccess(conversionResult) ==> m == TextOr(conversionResult.value.message, CompletedMessage)
    ensures !HasConversionSuccess(conversionResult) && lastConversionError != "" ==> m == lastConversionError
    ensures !HasConversionSuccess(conversionResult) && lastConversionError == "" && isConverting ==> m == ConvertingMessage
    ensures !HasConversionSuccess(conversionResult) && lastConversionError == "" && !isConverting ==> m == ""
    ensures m != "" <==> HasConversionSuccess(conversionResult) || lastConversionError != "" || isConverting
  {
    if conversionResult.Some? && conversionResult.value.success then
      TextOr(conversionResult.value.message, CompletedMessage)
    else if lastConversionError != "" then lastConversionError
    else if isConverting then ConvertingMessage
    else ""
  }

  /** What a finished conversion shows: its success message and no error,
      or its failure as the error and the status. */
  lemma FinishedConversionStatus(result: POS.OrderResponse)
    ensures result.success ==>
      HasConversionSuccess(Some(result)) && !HasConversionError(Some(result), "")
      && StatusMessage(Some(result), "", false) == TextOr(result.message, CompletedMessage)
    ensures !result.success ==>
      var e := TextOr(result.message, UnknownFailureMessage);
      !HasConversionSuccess(Some(result)) && HasConversionError(Some(result), e) && StatusMessage(Some(result), e, false) == e
  {
  }

  /** A dialog just opened or reset shows nothing. */
  lemma ClearedStatus()
    ensures !HasConversionSuccess(None) && !HasConversionError(None, "") && StatusMessage(None, "", false) == ""
  {
  }

  /** `canConvert`: credentials are stored and an order is selected. */
  predicate CanConvert(items: map<string, StoredItem>, selectedPlannedOrder: string) {
    POS.HasCredentials(items) && Trim(selectedPlannedOrder) != ""
  }

  class Conversion {
    var isDialogVisible: bool
    var selectedPlannedOrder: string
    var selectedMaterial: string
    var isConverting: bool
    var conversionResult: Option<POS.OrderResponse>
    var lastConversionError: string

    constructor()
      ensures !isDialogVisible && selectedPlannedOrder == "" && selectedMaterial == ""
      ensures !isConverting && conversionResult.None? && lastConversionError == ""
    {
      isDialogVisible := false;
      selectedPlannedOrder := "";
      selectedMaterial := "";
      isConverting := false;
      conversionResult := None;
      lastConversionError := "";
    }

    /** `openConversionDialog(plannedOrder, material)` */
    method OpenConversionDialog(plannedOrder: string, material: string)
      modifies this
      ensures isDialogVisible && selectedPlannedOrder == plannedOrder && selectedMaterial == material
      ensures conversionResult.None? && lastConversionError == "" && !isConverting
    {
      selectedPlannedOrder := plannedOrder;
      selectedMaterial := material;
      isDialogVisible := true;
      conversionResult := None;
      lastConversionError := "";
      isConverting := false;
    }

    /** `closeConversionDialog()`: every field back to where it started. */
    method CloseConversionDialog()
      modifies this
      ensures !isDialogVisible && selectedPlannedOrder == "" && selectedMaterial == ""
      ensures !isConverting && conversionResult.None? && lastConversionError == ""
    {
      isDialogVisible := false;
      selectedPlannedOrder := "";
      selectedMaterial := "";
      conversionResult := None;
      lastConversionError := "";
      isConverting := false;
    }

    /** `convertPlannedOrder(plannedOrder, manufacturingOrderType)` with the
      stored credentials and the backend's answer `post`.  `request` is the
      order and type the service is called with, `None` when it is not
      called. */
    method ConvertPlannedOrder(items: map<string, StoredItem>, plannedOrder: string, manufacturingOrderType: string,
                               post: Result<Json, Thrown>)
      returns (converted: bool, request: Option<(string, string)>)
      modifies this
      ensures !CanConvert(items, old(selectedPlannedOrder)) ==> (!converted && request.None? && lastConversionError == NotConvertibleMessage
        && isConverting == old(isConverting) && conversionResult == old(conversionResult))
      ensures CanConvert(items, old(selectedPlannedOrder)) && Trim(manufacturingOrderType) == "" ==> (!converted && request.None?
        && lastConversionError == TypeRequiredMessage
        && isConverting == old(isConverting) && conversionResult == old(conversionResult))
      ensures CanConvert(items, old(selectedPlannedOrder)) && Trim(manufacturingOrderType) != "" ==> (
        request == Some((plannedOrder, Trim(manufacturingOrderType)))
        && !isConverting && conversionResult.Some? && converted == conversionResult.value.success
        && (converted <==> POS.CredentialsUsable(items) && post.Ok?)
        && (converted ==> lastConversionError == "")
        && (!converted ==> lastConversionError == TextOr(conversionResult.value.message, UnknownFailureMessage))
        && (converted ==> conversionResult.value == POS.OrderResponse(true,
          POS.ConvertedPrefix + plannedOrder + POS.ConvertedInfix + POS.OrderNumber(post.value), Some(POS.OrderNumber(post.value))))
        && (!converted ==> (conversionResult.value == POS.OrderResponse(false, ConversionFailure(items, plannedOrder, post), None)
          && lastConversionError == ConversionFailure(items, plannedOrder, post))))
      ensures isDialogVisible == old(isDialogVisible) && selectedPlannedOrder == old(selectedPlannedOrder)
      ensures selectedMaterial == old(selectedMaterial)
    {
      if !CanConvert(items, selectedPlannedOrder) {
        Reject(NotConvertibleMessage);
        return false, None;
      }
      var orderType := Trim(manufacturingOrderType);
      if orderType == "" {
        Reject(TypeRequiredMessage);
        return false, None;
      }
      request := Some((plannedOrder, orderType));
      converted := RunConversion(items, plannedOrder, orderType, post);
    }

    /** A conversion refused before it starts: only the error changes. */
    method Reject(message: string)
      modifies this
      ensures lastConversionError == message
      ensures isConverting == old(isConverting) && conversionResult == old(conversionResult)
      ensures isDialogVisible == old(isDialogVisible) && selectedPlannedOrder == old(selectedPlannedOrder)
      ensures selectedMaterial == old(selectedMaterial)
    {
      lastConversionError := message;
    }

    /** The `try` block of a conversion that passed both checks. */
    method RunConversion(items: map<string, StoredItem>, plannedOrder: string, orderType: string,
                         post: Result<Json, Thrown>)
      returns (converted: bool)
      modifies this
      ensures !isConverting && conversionResult.Some? && converted == conversionResult.value.success
      ensures converted <==> POS.CredentialsUsable(items) && post.Ok?
      ensures converted ==> lastConversionError == ""
      ensures !converted ==> lastConversionError == TextOr(conversionResult.value.message, UnknownFailureMessage)
      ensures converted ==> conversionResult.value == POS.OrderResponse(true,
        POS.ConvertedPrefix + plannedOrder + POS.ConvertedInfix + POS.OrderNumber(post.value), Some(POS.OrderNumber(post.value)))
      ensures !converted ==> (conversionResult.value == POS.OrderResponse(false, ConversionFailure(items, plannedOrder, post), None)
        && lastConversionError == ConversionFailure(items, plannedOrder, post))
      ensures isDialogVisible == old(isDialogVisible) && selectedPlannedOrder == old(selectedPlannedOrder)
      ensures selectedMaterial == old(selectedMaterial)
    {
      StartConversion();
      var result := Convert(items, plannedOrder, orderType, post);
      FinishConversion(result);
      converted := result.success;
    }

    /** The conversion starts: it is in progress and no error is shown. */
    method StartConversion()
      modifies this
      ensures isConverting && lastConversionError == "" && conversionResult == old(conversionResult)
      ensures isDialogVisible == old(isDialogVisible) && selectedPlannedOrder == old(selectedPlannedOrder)
      ensures selectedMaterial == old(selectedMaterial)
    {
      isConverting := true;
      lastConversionError := "";
    }

    /** The service has answered: the answer is recorded, the conversion is
      no longer in progress, and a failure's message becomes the error. */
    method FinishConversion(result: POS.OrderResponse)
      modifies this
      ensures conversionResult == Some(result) && !isConverting
      ensures lastConversionError == if result.success then old(lastConversionError) else TextOr(result.message, UnknownFailureMessage)
      ensures isDialogVisible == old(isDialogVisible) && selectedPlannedOrder == old(selectedPlannedOrder)
      ensures selectedMaterial == old(selectedMaterial)
    {
      conversionResult := Some(result);
      isConverting := false;
      if !result.success {
        lastConversionError := TextOr(result.message, UnknownFailureMessage);
      }
    }

    /** `handlePlannedOrderClick(plannedOrder, material)`: the dialog opens
      only when credentials are stored. */
    method HandlePlannedOrderClick(items: map<string, StoredItem>, plannedOrder: string, material: string)
      modifies this
      ensures !POS.HasCredentials(items) ==> (lastConversionError == CredentialsRequiredMessage
        && isDialogVisible == old(isDialogVisible) && selectedPlannedOrder == old(selectedPlannedOrder)
        && selectedMaterial == old(selectedMaterial) && isConverting == old(isConverting)
        && conversionResult == old(conversionResult))
      ensures POS.HasCredentials(items) ==> (isDialogVisible && selectedPlannedOrder == plannedOrder
        && selectedMaterial == material && conversionResult.None? && lastConversionError == "" && !isConverting)
    {
      if !POS.HasCredentials(items) {
        lastConversionError := CredentialsRequiredMessage;
        return;
      }
      OpenConversionDialog(plannedOrder, material);
    }

    /** `resetConversionState()` */
    method ResetConversionState()
      modifies this
      ensures conversionResult.None? && lastConversionError == "" && !isConverting
      ensures isDialogVisible == old(isDialogVisible) && selectedPlannedOrder == old(selectedPlannedOrder)
      ensures selectedMaterial == old(selectedMaterial)
    {
      conversionResult := None;
      lastConversionError := "";
      isConverting := false;
    }
  }
}
