/**
 * The PayPal payment provider: the adapter the commerce framework calls to
 * create, authorize, capture, cancel, refund, update and look up payments.
 *
 * The PayPal SDK is a scripted sequence of replies, one per SDK call, and
 * every call the provider makes is recorded in order. The pure rules
 * (status mapping, option validation, capture intent, error records, and
 * which action a cancellation or refund takes) are functions; each provider
 * operation is a method proved equal to a function over the SDK's state.
 */
module Provider {
  import opened Js
  import opened PaypalTypes

  /** The line separator used in error details. */
  const EOL := "\n"

  const SECRET_MISSING := "Required option `clientSecret` is missing in paypal plugin"
  const ID_MISSING := "Required option `clientId` is missing in paypal plugin"
  const UNCAPTURED := "Cannot refund an uncaptured payment"
  const PATCH_PATH := "/purchase_units/@reference_id=='default'"

  const INITIATE_FAILED := "An error occurred in initiatePayment"
  const CANCEL_FAILED := "An error occurred in cancelPayment"
  const CAPTURE_FAILED := "An error occurred in capturePayment"
  const REFUND_FAILED := "An error occurred in refundPayment"
  const RETRIEVE_FAILED := "An error occurred in retrievePayment"
  const UPDATE_FAILED := "An error occurred in updatePayment"

  /** The status names PayPal reports that the provider distinguishes. */
  const LISTED_STATUSES: set<string> :=
    {"CREATED", "SAVED", "APPROVED", "VOIDED", "COMPLETED", "PAYER_ACTION_REQUIRED"}

  /** A status name that is not one of the listed ones. */
  type UnlistedStatus = s: string | s !in LISTED_STATUSES

  /**
   * A PayPal order's status. Statuses beyond the listed ones are kept by
   * name; a listed status is always its own constructor.
   */
  datatype OrderStatus =
    | CREATED | SAVED | APPROVED | VOIDED | COMPLETED | PAYER_ACTION_REQUIRED
    | OtherStatus(name: UnlistedStatus)

  /** The framework's payment-session statuses. */
  datatype SessionStatus = AUTHORIZED | CAPTURED | PENDING | REQUIRES_MORE | ERROR | CANCELED

  datatype Intent = CAPTURE | AUTHORIZE

  /**
   * An amount's value: the smallest-unit conversion of an amount in a
   * currency (a conversion defined outside this model, kept symbolic), or a
   * value as PayPal reports it.
   */
  datatype Money = SmallestUnit(amount: real, currency: string) | Quoted(value: string)

  datatype Amount = Amount(currencyCode: string, value: Money)

  datatype PaymentCapture = PaymentCapture(id: string)
  datatype PaymentAuthorization = PaymentAuthorization(id: string)

  datatype Payments = Payments(
    captures: Option<seq<PaymentCapture>>,
    authorizations: Option<seq<PaymentAuthorization>>)

  datatype PurchaseUnit = PurchaseUnit(customId: Option<string>, amount: Amount, payments: Option<Payments>)

  /** A PayPal order, which is also the shape of a payment session's data. */
  datatype Order = Order(
    id: Option<string>,
    status: Option<OrderStatus>,
    invoiceId: Option<string>,
    purchaseUnits: Option<seq<PurchaseUnit>>)

  /**
   * A thrown value: an `Error` (its `message`, and its `code` when it has
   * that property), or a framework payment-provider error.
   */
  datatype Thrown =
    | JsError(message: Option<string>, code: Option<string>)
    | ProviderFailure(error: string, code: Option<string>, detail: Option<string>)

  /** What reading a property of `undefined` throws. */
  const TYPE_ERROR: Thrown := JsError(Some("Cannot read properties of undefined"), None)

  /** The error record the provider returns to the framework. */
  datatype ProviderError = ProviderError(error: string, code: string, detail: string)

  /** What the provider hands back: `undefined`, an order, or an error record. */
  datatype Payload = NoPayload | OrderData(order: Order) | ErrorRecord(record: ProviderError)

  /** A payload as it is, or wrapped as `{ data: payload }`. */
  datatype Answer = Bare(payload: Payload) | InData(data: Payload)

  /** What `authorizePayment` resolves with. */
  datatype Authorized = Authorized(data: Order, status: SessionStatus)

  datatype PatchOp = PatchOp(op: string, path: string, amount: Amount)

  /** The SDK calls the provider makes. */
  datatype SdkCall =
    | CreateOrder(intent: Intent, units: seq<PurchaseUnit>)
    | GetOrder(orderId: string)
    | RefundPayment(captureId: string, refund: Option<Amount>)
    | CancelAuthorizedPayment(authorizationId: string)
    | CaptureAuthorizedPayment(authorizationId: string)
    | PatchOrder(target: Option<string>, ops: seq<PatchOp>)

  /**
   * How an SDK call settles. A resolved call's body is read only by
   * `createOrder` and `getOrder`.
   */
  datatype SdkReply = Resolved(body: Order) | Rejected(error: Thrown)

  /** The scripted SDK: replies still to come and the calls made so far. */
  datatype Sdk = Sdk(replies: seq<SdkReply>, calls: seq<SdkCall>)

  /** The reply to a call made after the script has run out. */
  const NO_REPLY: SdkReply := Rejected(JsError(None, None))

  /** Input of `initiatePayment`: the session id from the context, the currency and the amount. */
  datatype SessionInput = SessionInput(sessionId: string, currencyCode: string, amount: real)

  /** Input of `updatePayment`: the session data, the currency and the amount. */
  datatype UpdateInput = UpdateInput(data: Order, currencyCode: string, amount: real)

  /** The capture to refund and the currency of the refunded amount. */
  datatype RefundTarget = RefundTarget(captureId: string, currencyCode: string)

  /** The step `cancelPayment` takes once it has looked the order up. */
  datatype CancelStep =
    | NoOrder
    | KeepOrder(order: Order)
    | RefundCapture(captureId: string)
    | VoidAuthorization(authorizationId: string)
    | Abort(error: Thrown)

  // ---------------------------------------------------------------- pure rules

  /** `validateOptions`: Valid, or the message of the error it throws. */
  function ValidateOptions(options: Options): (r: Result<(), string>)
    ensures r.Ok? <==> options.clientSecret.Some? && options.clientId.Some?
    ensures options.clientSecret.None? ==> r == Err(SECRET_MISSING)
    ensures options.clientSecret.Some? && options.clientId.None? ==> r == Err(ID_MISSING)
  {
    if options.clientSecret.None? then Err(SECRET_MISSING)
    else if options.clientId.None? then Err(ID_MISSING)
    else Ok(())
  }

  /**
   * The `switch` of `getPaymentStatus`, applied to the `status` property of
   * what the lookup returned (None when it has no such property).
   */
  function SessionStatusOf(status: Option<OrderStatus>): (r: SessionStatus)
    ensures r != CAPTURED && r != ERROR
    ensures r == CANCELED <==> status == Some(VOIDED)
    ensures r == AUTHORIZED <==> status == Some(COMPLETED)
    ensures r == REQUIRES_MORE <==> status in {Some(SAVED), Some(APPROVED), Some(PAYER_ACTION_REQUIRED)}
  {
    match status
    case Some(CREATED) => PENDING
    case Some(SAVED) => REQUIRES_MORE
    case Some(APPROVED) => REQUIRES_MORE
    case Some(PAYER_ACTION_REQUIRED) => REQUIRES_MORE
    case Some(VOIDED) => CANCELED
    case Some(COMPLETED) => AUTHORIZED
    case _ => PENDING
  }

  /** The order intent `initiatePayment` chooses from the `capture` option. */
  function IntentFor(capture: Flag): (i: Intent)
    ensures i == CAPTURE <==> Truthy(capture)
  {
    if Truthy(capture) then CAPTURE else AUTHORIZE
  }

  /** `buildError(message, e)`. */
  function BuildError(message: string, e: Thrown): (r: ProviderError)
    ensures r.error == message
    ensures e.code.Some? ==> r.code == e.code.value
    ensures e.code.None? ==> r.code == ""
    ensures e.JsError? ==> r.detail == e.message.GetOr("")
    ensures e.ProviderFailure? ==> r.detail == e.error + EOL + e.detail.GetOr("")
  {
    ProviderError(
      message,
      e.code.GetOr(""),
      match e
      case JsError(m, _) => m.GetOr("")
      case ProviderFailure(err, _, detail) => err + EOL + detail.GetOr(""))
  }

  /** `pu.payments.captures?.length` is truthy. */
  predicate IsCaptured(pu: PurchaseUnit) {
    pu.payments.Some? && pu.payments.value.captures.Some? && |pu.payments.value.captures.value| > 0
  }

  /** Every unit before index k has a `payments` property. */
  predicate PaymentsBefore(units: seq<PurchaseUnit>, k: int)
    requires 0 <= k <= |units|
  {
    forall i :: 0 <= i < k ==> units[i].payments.Some?
  }

  /**
   * `units.some(pu => pu.payments.captures?.length)`: it stops at the first
   * captured unit, and throws when it reaches a unit without `payments`.
   */
  function SomeCaptured(units: seq<PurchaseUnit>): (r: Result<bool, Thrown>)
    ensures r == Ok(true) <==>
              exists k :: 0 <= k < |units| && IsCaptured(units[k]) && PaymentsBefore(units, k)
    ensures r == Ok(false) <==>
              forall i :: 0 <= i < |units| ==> units[i].payments.Some? && !IsCaptured(units[i])
    ensures r.Err? ==> r.error == TYPE_ERROR
  {
    if units == [] then Ok(false)
    else if units[0].payments.None? then Err(TYPE_ERROR)
    else if IsCaptured(units[0]) then Ok(true)
    else
      var rest := SomeCaptured(units[1..]);
      assert forall k :: 1 <= k <= |units| && PaymentsBefore(units[1..], k - 1) ==> PaymentsBefore(units, k);
      assert forall k :: 1 <= k <= |units| && PaymentsBefore(units, k) ==> PaymentsBefore(units[1..], k - 1);
      rest
  }

  /** `units[0].payments.captures[0].id`. */
  function FirstCaptureId(units: seq<PurchaseUnit>): (r: Result<string, Thrown>)
    ensures r.Ok? <==> |units| > 0 && IsCaptured(units[0])
    ensures r.Ok? ==> r.value == units[0].payments.value.captures.value[0].id
    ensures r.Err? ==> r.error == TYPE_ERROR
  {
    if |units| == 0 || !IsCaptured(units[0]) then Err(TYPE_ERROR)
    else Ok(units[0].payments.value.captures.value[0].id)
  }

  /** `units[0].payments.authorizations[0].id`. */
  function FirstAuthorizationId(units: seq<PurchaseUnit>): (r: Result<string, Thrown>)
    ensures r.Ok? <==>
              |units| > 0 && units[0].payments.Some? &&
              units[0].payments.value.authorizations.Some? && |units[0].payments.value.authorizations.value| > 0
    ensures r.Ok? ==> r.value == units[0].payments.value.authorizations.value[0].id
    ensures r.Err? ==> r.error == TYPE_ERROR
  {
    if |units| == 0 || units[0].payments.None? then Err(TYPE_ERROR)
    else match units[0].payments.value.authorizations
      case Some(auths) => if |auths| == 0 then Err(TYPE_ERROR) else Ok(auths[0].id)
      case None => Err(TYPE_ERROR)
  }

  /** `purchase_units[0].payments.authorizations[0].id` of session data. */
  function SessionAuthorizationId(data: Order): (r: Result<string, Thrown>)
    ensures r.Ok? <==> data.purchaseUnits.Some? && FirstAuthorizationId(data.purchaseUnits.value).Ok?
    ensures r.Ok? ==> r.value == data.purchaseUnits.value[0].payments.value.authorizations.value[0].id
    ensures r.Err? ==> r.error == TYPE_ERROR
  {
    match data.purchaseUnits
    case None => Err(TYPE_ERROR)
    case Some(units) => FirstAuthorizationId(units)
  }

  /**
   * The looked-up order is already voided, or completed and invoiced. Such an
   * order's session status is CANCELED or AUTHORIZED, never one still open.
   */
  predicate AlreadySettled(found: Payload): (b: bool)
    ensures b ==> found.OrderData? && SessionStatusOf(found.order.status) in {CANCELED, AUTHORIZED}
    ensures found.OrderData? && found.order.status == Some(VOIDED) ==> b
    ensures found.OrderData? && found.order.status == Some(COMPLETED) ==> (b <==> Present(found.order.invoiceId))
  {
    found.OrderData? &&
    (found.order.status == Some(VOIDED) ||
     (found.order.status == Some(COMPLETED) && Present(found.order.invoiceId)))
  }

  /**
   * Which step `cancelPayment` takes, given what the lookup returned and the
   * session data: nothing without an order, the order as it is when already
   * settled, otherwise a refund of the first capture when any unit is
   * captured, else a void of the first authorization.
   */
  function CancelDecision(found: Payload, data: Order): (d: CancelStep)
    ensures d.NoOrder? <==> found.NoPayload?
    ensures d.KeepOrder? <==> AlreadySettled(found)
    ensures d.KeepOrder? ==> d.order == found.order
    ensures d.RefundCapture? <==>
              !found.NoPayload? && !AlreadySettled(found) && data.purchaseUnits.Some? &&
              SomeCaptured(data.purchaseUnits.value) == Ok(true) &&
              IsCaptured(data.purchaseUnits.value[0])
    ensures d.RefundCapture? ==>
              d.captureId == data.purchaseUnits.value[0].payments.value.captures.value[0].id
    ensures d.VoidAuthorization? <==>
              !found.NoPayload? && !AlreadySettled(found) && data.purchaseUnits.Some? &&
              SomeCaptured(data.purchaseUnits.value) == Ok(false) &&
              FirstAuthorizationId(data.purchaseUnits.value).Ok?
    ensures d.VoidAuthorization? ==>
              (forall i :: 0 <= i < |data.purchaseUnits.value| ==> !IsCaptured(data.purchaseUnits.value[i])) &&
              d.authorizationId == FirstAuthorizationId(data.purchaseUnits.value).value
    ensures d.Abort? <==>
              !found.NoPayload? && !AlreadySettled(found) &&
              (data.purchaseUnits.None? ||
               SomeCaptured(data.purchaseUnits.value).Err? ||
               (SomeCaptured(data.purchaseUnits.value) == Ok(true) && !IsCaptured(data.purchaseUnits.value[0])) ||
               (SomeCaptured(data.purchaseUnits.value) == Ok(false) && FirstAuthorizationId(data.purchaseUnits.value).Err?))
    ensures d.Abort? ==> d.error == TYPE_ERROR
  {
    if found.NoPayload? then NoOrder
    else if AlreadySettled(found) then KeepOrder(found.order)
    else match data.purchaseUnits
      case None => Abort(TYPE_ERROR)
      case Some(units) =>
        match SomeCaptured(units)
        case Err(e) => Abort(e)
        case Ok(captured) =>
          if captured then
            match FirstCaptureId(units)
            case Ok(id) => RefundCapture(id)
            case Err(e) => Abort(e)
          else
            match FirstAuthorizationId(units)
            case Ok(id) => VoidAuthorization(id)
            case Err(e) => Abort(e)
  }

  /**
   * The capture `refundPayment` refunds, or what it throws before calling
   * PayPal: the "uncaptured" error exactly when every unit has payments and
   * none is captured.
   */
  function RefundDecision(data: Order): (r: Result<RefundTarget, Thrown>)
    ensures r == Err(JsError(Some(UNCAPTURED), None)) <==>
              data.purchaseUnits.Some? && |data.purchaseUnits.value| > 0 &&
              forall i :: 0 <= i < |data.purchaseUnits.value| ==>
                data.purchaseUnits.value[i].payments.Some? && !IsCaptured(data.purchaseUnits.value[i])
    ensures r.Ok? <==>
              data.purchaseUnits.Some? && |data.purchaseUnits.value| > 0 && IsCaptured(data.purchaseUnits.value[0])
    ensures r.Err? && r.error != JsError(Some(UNCAPTURED), None) ==> r.error == TYPE_ERROR
    ensures r.Ok? ==>
              r.value.captureId == data.purchaseUnits.value[0].payments.value.captures.value[0].id &&
              r.value.currencyCode == data.purchaseUnits.value[0].amount.currencyCode
  {
    match data.purchaseUnits
    case None => Err(TYPE_ERROR)
    case Some(units) =>
      if |units| == 0 then Err(TYPE_ERROR)
      else
        match SomeCaptured(units)
        case Err(e) => Err(e)
        case Ok(captured) =>
          if !captured then Err(JsError(Some(UNCAPTURED), None))
          else
            match FirstCaptureId(units)
            case Ok(id) => Ok(RefundTarget(id, units[0].amount.currencyCode))
            case Err(e) => Err(e)
  }

  /** The single purchase unit `initiatePayment` sends. */
  function InitialUnit(input: SessionInput): (u: PurchaseUnit)
    ensures u.customId == Some(input.sessionId) && u.payments.None?
    ensures u.amount.currencyCode == ToUpperCase(input.currencyCode)
    ensures u.amount.value == SmallestUnit(input.amount, input.currencyCode)
  {
    PurchaseUnit(Some(input.sessionId),
                 Amount(ToUpperCase(input.currencyCode), SmallestUnit(input.amount, input.currencyCode)),
                 None)
  }

  /** The patch `updatePayment` sends. */
  function AmountPatch(input: UpdateInput): (r: seq<PatchOp>)
    ensures |r| == 1 && r[0].op == "replace" && r[0].path == PATCH_PATH
    ensures r[0].amount == InitialUnit(SessionInput("", input.currencyCode, input.amount)).amount
  {
    [PatchOp("replace", PATCH_PATH,
             Amount(ToUpperCase(input.currencyCode), SmallestUnit(input.amount, input.currencyCode)))]
  }

  // ------------------------------------------------ operations over the SDK

  /** The reply the next SDK call receives. */
  function NextReply(w: Sdk): SdkReply {
    if w.replies == [] then NO_REPLY else w.replies[0]
  }

  /** One SDK call: it is logged and takes the next scripted reply. */
  function Invoke(w: Sdk, call: SdkCall): (r: (SdkReply, Sdk))
    ensures r.0 == NextReply(w)
    ensures r.1.calls == w.calls + [call]
    ensures w.replies != [] ==> r.0 == w.replies[0] && r.1.replies == w.replies[1..]
    ensures w.replies == [] ==> r.0 == NO_REPLY && r.1.replies == []
  {
    if w.replies == [] then (NO_REPLY, w.(calls := w.calls + [call]))
    else (w.replies[0], Sdk(w.replies[1..], w.calls + [call]))
  }

  /**
   * `retrievePayment`: nothing, and no call, without a session id; otherwise
   * exactly one `getOrder` call, whose failure becomes an error record.
   */
  function Retrieval(w: Sdk, data: Order): (r: (Payload, Sdk))
    ensures !Present(data.id) ==> r == (NoPayload, w)
    ensures Present(data.id) ==> r.1 == Invoke(w, GetOrder(data.id.value)).1 && !r.0.NoPayload?
    ensures Present(data.id) && NextReply(w).Resolved? ==> r.0 == OrderData(NextReply(w).body)
    ensures Present(data.id) && NextReply(w).Rejected? ==>
              r.0 == ErrorRecord(BuildError(RETRIEVE_FAILED, NextReply(w).error))
  {
    if !Present(data.id) then (NoPayload, w)
    else
      var (reply, w1) := Invoke(w, GetOrder(data.id.value));
      match reply
      case Resolved(order) => (OrderData(order), w1)
      case Rejected(e) => (ErrorRecord(BuildError(RETRIEVE_FAILED, e)), w1)
  }

  /** The `status` property of what the lookup returned; an error record has none. */
  function StatusProperty(found: Payload): Option<OrderStatus>
    requires !found.NoPayload?
  {
    if found.OrderData? then found.order.status else None
  }

  /**
   * `getPaymentStatus`: the mapped status of the looked-up order. It rejects
   * without a session id, and reports PENDING when the lookup failed.
   */
  function StatusLookup(w: Sdk, data: Order): (r: (Result<SessionStatus, Thrown>, Sdk))
    ensures r.1 == Retrieval(w, data).1
    ensures r.0.Err? <==> !Present(data.id)
    ensures Retrieval(w, data).0.OrderData? ==> r.0 == Ok(SessionStatusOf(Retrieval(w, data).0.order.status))
    ensures Retrieval(w, data).0.ErrorRecord? ==> r.0 == Ok(PENDING)
  {
    var (found, w1) := Retrieval(w, data);
    if found.NoPayload? then (Err(TYPE_ERROR), w1)
    else (Ok(SessionStatusOf(StatusProperty(found))), w1)
  }

  /** `authorizePayment`: the session data unchanged, with the looked-up status. */
  function Authorization(w: Sdk, data: Order): (r: (Result<Authorized, Thrown>, Sdk))
    ensures r.1 == StatusLookup(w, data).1
    ensures r.0.Ok? <==> StatusLookup(w, data).0.Ok?
    ensures r.0.Ok? ==> r.0.value == Authorized(data, StatusLookup(w, data).0.value)
  {
    var (status, w1) := StatusLookup(w, data);
    match status
    case Ok(s) => (Ok(Authorized(data, s)), w1)
    case Err(e) => (Err(e), w1)
  }

  /** `initiatePayment`: one `createOrder` call. */
  function Initiation(w: Sdk, options: Options, input: SessionInput): (r: (Answer, Sdk))
    ensures r.1.calls == w.calls + [CreateOrder(IntentFor(options.capture), [InitialUnit(input)])]
    ensures NextReply(w).Resolved? ==> r.0 == InData(OrderData(NextReply(w).body))
    ensures NextReply(w).Rejected? ==>
              r.0 == Bare(ErrorRecord(BuildError(INITIATE_FAILED, NextReply(w).error)))
  {
    var (reply, w1) := Invoke(w, CreateOrder(IntentFor(options.capture), [InitialUnit(input)]));
    match reply
    case Resolved(order) => (InData(OrderData(order)), w1)
    case Rejected(e) => (Bare(ErrorRecord(BuildError(INITIATE_FAILED, e))), w1)
  }

  /**
   * The follow-up lookups after an action: one `getOrder` when the action
   * succeeded and the session has an id, none otherwise.
   */
  function Lookups(reply: SdkReply, data: Order): seq<SdkCall> {
    if reply.Resolved? && Present(data.id) then [GetOrder(data.id.value)] else []
  }

  /**
   * The tail of `cancelPayment` once it has chosen its action: the action,
   * then one lookup if it succeeded, answered as `{ data: lookup }`; a
   * failed action answers the cancelPayment error record.
   */
  function AfterAction(w: Sdk, action: SdkCall, data: Order): (r: (Answer, Sdk))
    requires Present(data.id)
    ensures r.1.calls == w.calls + [action] + Lookups(NextReply(w), data)
    ensures NextReply(w).Rejected? ==>
              r == (Bare(ErrorRecord(BuildError(CANCEL_FAILED, NextReply(w).error))), Invoke(w, action).1)
    ensures NextReply(w).Resolved? ==>
              r.0 == InData(Retrieval(Invoke(w, action).1, data).0) && r.1 == Retrieval(Invoke(w, action).1, data).1
  {
    var (reply, w1) := Invoke(w, action);
    match reply
    case Rejected(e) => (Bare(ErrorRecord(BuildError(CANCEL_FAILED, e))), w1)
    case Resolved(_) =>
      var (found, w2) := Retrieval(w1, data);
      (InData(found), w2)
  }

  /**
   * `cancelPayment`. No refund or void call without an order, or when the
   * order is already settled or the session data is unusable; otherwise
   * exactly one, right after the lookup.
   */
  function Cancellation(w: Sdk, data: Order): (r: (Answer, Sdk))
    ensures var (found, w1) := Retrieval(w, data);
            match CancelDecision(found, data)
            case NoOrder => r == (InData(NoPayload), w)
            case KeepOrder(order) => r == (Bare(OrderData(order)), w1)
            case Abort(e) => r == (Bare(ErrorRecord(BuildError(CANCEL_FAILED, e))), w1)
            case RefundCapture(id) => Present(data.id) && r == AfterAction(w1, RefundPayment(id, None), data)
            case VoidAuthorization(id) => Present(data.id) && r == AfterAction(w1, CancelAuthorizedPayment(id), data)
  {
    var (found, w1) := Retrieval(w, data);
    match CancelDecision(found, data)
    case NoOrder => (InData(NoPayload), w1)
    case KeepOrder(order) => (Bare(OrderData(order)), w1)
    case Abort(e) => (Bare(ErrorRecord(BuildError(CANCEL_FAILED, e))), w1)
    case RefundCapture(id) => AfterAction(w1, RefundPayment(id, None), data)
    case VoidAuthorization(id) => AfterAction(w1, CancelAuthorizedPayment(id), data)
  }

  /**
   * `capturePayment`: it rejects, with no call, when the session data has no
   * first authorization; otherwise it captures that authorization.
   */
  function Capture(w: Sdk, data: Order): (r: (Result<Payload, Thrown>, Sdk))
    ensures SessionAuthorizationId(data).Err? ==> r == (Err(TYPE_ERROR), w)
    ensures SessionAuthorizationId(data).Ok? ==>
              var call := CaptureAuthorizedPayment(SessionAuthorizationId(data).value);
              r.0.Ok? &&
              r.1.calls == w.calls + [call] + Lookups(NextReply(w), data) &&
              (NextReply(w).Rejected? ==>
                 r == (Ok(ErrorRecord(BuildError(CAPTURE_FAILED, NextReply(w).error))), Invoke(w, call).1)) &&
              (NextReply(w).Resolved? ==>
                 r == (Ok(Retrieval(Invoke(w, call).1, data).0), Retrieval(Invoke(w, call).1, data).1))
  {
    match SessionAuthorizationId(data)
    case Err(e) => (Err(e), w)
    case Ok(id) =>
      var (reply, w1) := Invoke(w, CaptureAuthorizedPayment(id));
      match reply
      case Rejected(e) => (Ok(ErrorRecord(BuildError(CAPTURE_FAILED, e))), w1)
      case Resolved(_) =>
        var (found, w2) := Retrieval(w1, data);
        (Ok(found), w2)
  }

  /**
   * `refundPayment`: no call at all unless the first unit is captured; then
   * a refund of its first capture, in that unit's currency.
   */
  function Refund(w: Sdk, data: Order, amount: real): (r: (Payload, Sdk))
    ensures RefundDecision(data).Err? ==>
              r == (ErrorRecord(BuildError(REFUND_FAILED, RefundDecision(data).error)), w)
    ensures RefundDecision(data).Ok? ==>
              var t := RefundDecision(data).value;
              var call := RefundPayment(t.captureId, Some(Amount(t.currencyCode, SmallestUnit(amount, t.currencyCode))));
              r.1.calls == w.calls + [call] + Lookups(NextReply(w), data) &&
              (NextReply(w).Rejected? ==>
                 r == (ErrorRecord(BuildError(REFUND_FAILED, NextReply(w).error)), Invoke(w, call).1)) &&
              (NextReply(w).Resolved? ==> r == Retrieval(Invoke(w, call).1, data))
  {
    match RefundDecision(data)
    case Err(e) => (ErrorRecord(BuildError(REFUND_FAILED, e)), w)
    case Ok(t) =>
      var call := RefundPayment(t.captureId, Some(Amount(t.currencyCode, SmallestUnit(amount, t.currencyCode))));
      var (reply, w1) := Invoke(w, call);
      match reply
      case Rejected(e) => (ErrorRecord(BuildError(REFUND_FAILED, e)), w1)
      case Resolved(_) => Retrieval(w1, data)
  }

  /** `updatePayment`: one `patchOrder` replacing the amount, then a lookup. */
  function Update(w: Sdk, input: UpdateInput): (r: (Answer, Sdk))
    ensures r.1.calls == w.calls + [PatchOrder(input.data.id, AmountPatch(input))] + Lookups(NextReply(w), input.data)
    ensures NextReply(w).Rejected? ==>
              r == (Bare(ErrorRecord(BuildError(UPDATE_FAILED, NextReply(w).error))),
                    Invoke(w, PatchOrder(input.data.id, AmountPatch(input))).1)
    ensures NextReply(w).Resolved? ==>
              var looked := Retrieval(Invoke(w, PatchOrder(input.data.id, AmountPatch(input))).1, input.data);
              r == (InData(looked.0), looked.1)
  {
    var (reply, w1) := Invoke(w, PatchOrder(input.data.id, AmountPatch(input)));
    match reply
    case Rejected(e) => (Bare(ErrorRecord(BuildError(UPDATE_FAILED, e))), w1)
    case Resolved(_) =>
      var (found, w2) := Retrieval(w1, input.data);
      (InData(found), w2)
  }

  // ------------------------------------------------------------------ lemmas

  /** The calls that act on a payment: a refund or a void. */
  predicate IsAction(c: SdkCall) {
    c.RefundPayment? || c.CancelAuthorizedPayment?
  }

  function ActionCount(calls: seq<SdkCall>): nat {
    if calls == [] then 0
    else (if IsAction(calls[0]) then 1 else 0) + ActionCount(calls[1..])
  }

  lemma {:induction false} ActionCountAppend(a: seq<SdkCall>, b: seq<SdkCall>)
    ensures ActionCount(a + b) == ActionCount(a) + ActionCount(b)
  {
    if a == [] {
      assert a + b == b;
    } else {
      assert (a + b)[0] == a[0] && (a + b)[1..] == a[1..] + b;
      ActionCountAppend(a[1..], b);
    }
  }

  /**
   * `cancelPayment` makes exactly one refund or void call when it decides to
   * act, and none otherwise; every other call it makes is a lookup.
   */
  lemma CancelActsAtMostOnce(w: Sdk, data: Order)
    ensures var r := Cancellation(w, data);
            var d := CancelDecision(Retrieval(w, data).0, data);
            w.calls <= r.1.calls &&
            ActionCount(r.1.calls[|w.calls|..]) == (if d.RefundCapture? || d.VoidAuthorization? then 1 else 0)
  {
    var (found, w1) := Retrieval(w, data);
    var r := Cancellation(w, data);
    match CancelDecision(found, data)
    case NoOrder =>
      assert r.1.calls[|w.calls|..] == [];
    case KeepOrder(_) =>
      assert r.1.calls[|w.calls|..] == [GetOrder(data.id.value)];
    case Abort(_) =>
      assert r.1.calls[|w.calls|..] == [GetOrder(data.id.value)];
    case RefundCapture(id) =>
      ActsOnce(w, w1, RefundPayment(id, None), data);
    case VoidAuthorization(id) =>
      ActsOnce(w, w1, CancelAuthorizedPayment(id), data);
  }

  /** The calls after a successful lookup: the action, then possibly one more lookup. */
  lemma ActsOnce(w: Sdk, w1: Sdk, action: SdkCall, data: Order)
    requires Present(data.id) && IsAction(action)
    requires w1.calls == w.calls + [GetOrder(data.id.value)]
    ensures var r := AfterAction(w1, action, data);
            w.calls <= r.1.calls && ActionCount(r.1.calls[|w.calls|..]) == 1
  {
    var r := AfterAction(w1, action, data);
    var (reply, w2) := Invoke(w1, action);
    var lookup := GetOrder(data.id.value);
    if reply.Rejected? {
      assert r.1.calls[|w.calls|..] == [lookup, action];
      ActionCountAppend([lookup], [action]);
    } else {
      assert r.1.calls[|w.calls|..] == [lookup, action] + [lookup];
      ActionCountAppend([lookup, action], [lookup]);
      ActionCountAppend([lookup], [action]);
    }
  }

  /** `refundPayment` sends at most one refund, and only when it decided on a capture. */
  lemma {:induction false} RefundActsAtMostOnce(w: Sdk, data: Order, amount: real)
    ensures var r := Refund(w, data, amount);
            w.calls <= r.1.calls &&
            ActionCount(r.1.calls[|w.calls|..]) == (if RefundDecision(data).Ok? then 1 else 0)
  {
    var r := Refund(w, data, amount);
    if RefundDecision(data).Ok? {
      var t := RefundDecision(data).value;
      var call := RefundPayment(t.captureId, Some(Amount(t.currencyCode, SmallestUnit(amount, t.currencyCode))));
      var tail := Lookups(NextReply(w), data);
      assert r.1.calls[|w.calls|..] == [call] + tail;
      ActionCountAppend([call], tail);
      assert ActionCount(tail) == 0 by {
        if tail != [] {
          assert tail[1..] == [];
        }
      }
    } else {
      assert r.1.calls[|w.calls|..] == [];
    }
  }

  /**
   * Refunding a session whose purchase units all have payments and none is
   * captured returns the "uncaptured" error record and calls nothing.
   */
  lemma RefundUncapturedMakesNoCall(w: Sdk, data: Order, amount: real)
    requires data.purchaseUnits.Some? && |data.purchaseUnits.value| > 0
    requires forall i :: 0 <= i < |data.purchaseUnits.value| ==>
               data.purchaseUnits.value[i].payments.Some? && !IsCaptured(data.purchaseUnits.value[i])
    ensures Refund(w, data, amount) == (ErrorRecord(ProviderError(REFUND_FAILED, "", UNCAPTURED)), w)
  {
  }

  /**
   * `initiatePayment` sends one purchase unit carrying the session id and
   * the upper-cased currency, with intent CAPTURE exactly when the capture
   * option is truthy.
   */
  lemma InitiateSendsOneUnit(w: Sdk, options: Options, input: SessionInput)
    ensures var calls := Initiation(w, options, input).1.calls;
            |calls| == |w.calls| + 1 &&
            var c := calls[|w.calls|];
            c.CreateOrder? &&
            (c.intent == CAPTURE <==> Truthy(options.capture)) &&
            |c.units| == 1 &&
            c.units[0].customId == Some(input.sessionId) &&
            c.units[0].amount.currencyCode == ToUpperCase(input.currencyCode) &&
            c.units[0].amount.value == SmallestUnit(input.amount, input.currencyCode)
  {
  }

  // ---------------------------------------------------------------- provider

  /** The provider. Its options and SDK are fixed; it keeps no other state. */
  class PayPalProviderService {
    const options: Options
    /** The SDK's replies to the calls still to come. */
    var replies: seq<SdkReply>
    /** Every SDK call made so far, in order. */
    var calls: seq<SdkCall>

    function State(): Sdk
      reads this
    {
      Sdk(replies, calls)
    }

    constructor (options: Options, replies: seq<SdkReply>)
      ensures this.options == options
      ensures State() == Sdk(replies, [])
    {
      this.options := options;
      this.replies := replies;
      calls := [];
    }

    /** One SDK call. */
    method Call(call: SdkCall) returns (reply: SdkReply)
      modifies this`replies, this`calls
      ensures (reply, State()) == Invoke(old(State()), call)
    {
      calls := calls + [call];
      if replies == [] {
        reply := NO_REPLY;
      } else {
        reply := replies[0];
        replies := replies[1..];
      }
    }

    method GetPaymentStatus(data: Order) returns (r: Result<SessionStatus, Thrown>)
      modifies this`replies, this`calls
      ensures (r, State()) == StatusLookup(old(State()), data)
    {
      var found := RetrievePayment(data);
      if found.NoPayload? {
        return Err(TYPE_ERROR);
      }
      var status := if found.OrderData? then found.order.status else None;
      r := Ok(SessionStatusOf(status));
    }

    method InitiatePayment(input: SessionInput) returns (r: Answer)
      modifies this`replies, this`calls
      ensures (r, State()) == Initiation(old(State()), options, input)
    {
      var intent := if Truthy(options.capture) then CAPTURE else AUTHORIZE;
      var unit := PurchaseUnit(Some(input.sessionId),
                               Amount(ToUpperCase(input.currencyCode), SmallestUnit(input.amount, input.currencyCode)),
                               None);
      var reply := Call(CreateOrder(intent, [unit]));
      if reply.Rejected? {
        return Bare(ErrorRecord(BuildError(INITIATE_FAILED, reply.error)));
      }
      r := InData(OrderData(reply.body));
    }

    method AuthorizePayment(data: Order) returns (r: Result<Authorized, Thrown>)
      modifies this`replies, this`calls
      ensures (r, State()) == Authorization(old(State()), data)
    {
      var status := GetPaymentStatus(data);
      if status.Err? {
        return Err(status.error);
      }
      r := Ok(Authorized(data, status.value));
    }

    method CancelPayment(data: Order) returns (r: Answer)
      modifies this`replies, this`calls
      ensures (r, State()) == Cancellation(old(State()), data)
    {
      var found := RetrievePayment(data);
      if found.NoPayload? {
        return InData(NoPayload);
      }
      if AlreadySettled(found) {
        return Bare(found);
      }
      var action: SdkCall;
      match data.purchaseUnits {
        case None =>
          return Bare(ErrorRecord(BuildError(CANCEL_FAILED, TYPE_ERROR)));
        case Some(units) =>
          var captured := SomeCaptured(units);
          if captured.Err? {
            return Bare(ErrorRecord(BuildError(CANCEL_FAILED, captured.error)));
          }
          var id := if captured.value then FirstCaptureId(units) else FirstAuthorizationId(units);
          if id.Err? {
            return Bare(ErrorRecord(BuildError(CANCEL_FAILED, id.error)));
          }
          action := if captured.value then SdkCall.RefundPayment(id.value, None) else CancelAuthorizedPayment(id.value);
      }
      var reply := Call(action);
      if reply.Rejected? {
        return Bare(ErrorRecord(BuildError(CANCEL_FAILED, reply.error)));
      }
      var after := RetrievePayment(data);
      r := InData(after);
    }

    method CapturePayment(data: Order) returns (r: Result<Payload, Thrown>)
      modifies this`replies, this`calls
      ensures (r, State()) == Capture(old(State()), data)
    {
      var id := SessionAuthorizationId(data);
      if id.Err? {
        return Err(id.error);
      }
      var reply := Call(CaptureAuthorizedPayment(id.value));
      if reply.Rejected? {
        return Ok(ErrorRecord(BuildError(CAPTURE_FAILED, reply.error)));
      }
      var found := RetrievePayment(data);
      r := Ok(found);
    }

    /** `deletePayment` is `cancelPayment`. */
    method DeletePayment(data: Order) returns (r: Answer)
      modifies this`replies, this`calls
      ensures (r, State()) == Cancellation(old(State()), data)
    {
      r := CancelPayment(data);
    }

    method RefundPayment(data: Order, amount: real) returns (r: Payload)
      modifies this`replies, this`calls
      ensures (r, State()) == Refund(old(State()), data, amount)
    {
      var target := RefundDecision(data);
      if target.Err? {
        return ErrorRecord(BuildError(REFUND_FAILED, target.error));
      }
      var currency := target.value.currencyCode;
      var reply := Call(SdkCall.RefundPayment(target.value.captureId, Some(Amount(currency, SmallestUnit(amount, currency)))));
      if reply.Rejected? {
        return ErrorRecord(BuildError(REFUND_FAILED, reply.error));
      }
      r := RetrievePayment(data);
    }

    method RetrievePayment(data: Order) returns (r: Payload)
      modifies this`replies, this`calls
      ensures (r, State()) == Retrieval(old(State()), data)
    {
      if !Present(data.id) {
        return NoPayload;
      }
      var reply := Call(GetOrder(data.id.value));
      if reply.Rejected? {
        return ErrorRecord(BuildError(RETRIEVE_FAILED, reply.error));
      }
      r := OrderData(reply.body);
    }

    method UpdatePayment(input: UpdateInput) returns (r: Answer)
      modifies this`replies, this`calls
      ensures (r, State()) == Update(old(State()), input)
    {
      var patch := [PatchOp("replace", PATCH_PATH,
                            Amount(ToUpperCase(input.currencyCode), SmallestUnit(input.amount, input.currencyCode)))];
      var reply := Call(PatchOrder(input.data.id, patch));
      if reply.Rejected? {
        return Bare(ErrorRecord(BuildError(UPDATE_FAILED, reply.error)));
      }
      var found := RetrievePayment(input.data);
      r := InData(found);
    }
  }
}
