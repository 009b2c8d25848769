# PayPal payment adapter — a verified model

This project models the two pieces of logic a Medusa commerce backend owns in its PayPal
payment module:

- **The payment provider** (`PayPalProviderService`). The framework calls it to create,
  authorize, capture, cancel, delete, refund, update and look up a payment session. It maps
  PayPal order statuses onto the framework's session statuses. It decides whether a
  cancellation refunds a capture, voids an authorization, or does nothing. It turns thrown
  errors into the framework's error records.
- **The PayPal HTTP client** (`PaypalHttpClient`). Every request goes through a wrapper. When
  PayPal answers 401, the wrapper increments a retry count, re-authenticates through the same
  wrapper, and retries once with the new bearer token. Once the retry count exceeds
  `MAX_ATTEMPTS` (2), a call fails without contacting PayPal.

PayPal itself is abstract in both parts. The HTTP client sees a scripted sequence of outcomes,
one per request: a JSON body, an HTTP status, or no response. It records every request sent.
The provider sees the PayPal SDK the same way: a scripted reply per SDK call, and a log of the
calls made.

Each effectful operation is a method on a class (`PaypalHttpClient`, `PayPalProviderService`).
Its `ensures` equates its result and the new state with a pure function of the old state
(`Wrapped`, `Authentication`, `Cancellation`, `Refund`, …). The properties are proved about
those functions, either in their own contracts or in lemmas.

Files:

- `js.dfy`: JavaScript value semantics the code relies on. This covers `undefined`, `??`,
  truthiness and upper-casing.
- `paypal_types.dfy`: the adapter options.
- `http_client.dfy`: the HTTP client with its retry-on-401 state machine.
- `provider.dfy`: the payment provider.

Properties worth knowing, proved here:

- **Bounded calls.** A top-level request sends at most five requests, whatever PayPal answers
  (`Wrapped`, `RequestSendsAtMostFive`). Five can actually happen (`FiveRequestsReachable`).
  The retry count grows by one on every nested authentication, and the methods terminate by
  the `decreases` clause `MAX_ATTEMPTS + 1 - retryCount`.
- **Nested 401 during authentication.** Suppose the authentication request itself gets a 401.
  The nested wrapper already holds the outer request as its `originalConfig`. After it
  re-authenticates, it therefore re-sends the outer request, not the token grant. The outer
  authentication then reads `access_token` from that request's answer
  (`NestedUnauthorizedResendsOriginal`). The original request is sent three times: first, when
  it gets the 401; second, as the nested wrapper's re-send; third, as the outer wrapper's
  re-send. The third copy carries the token read from the second copy's answer. An API answer
  has no `access_token`, so that copy goes out as `Bearer undefined` and the client is left
  without a token (`NestedRetrySendsUndefinedBearer`). PayPal would normally refuse it with a
  401, which the bare retry rethrows. The likely outcome is that the request takes effect once
  while the call reports a 401. For example, `cancelPayment` would then return an error record
  although the refund went through. The effect happens twice only if PayPal accepts
  `Bearer undefined`. The model reproduces this as the code is written.
- **Nested authentication.** Informally, the client "authenticates once and retries once on
  401". As written, the code can nest authentication `MAX_ATTEMPTS` levels deep, because each
  authentication goes through the same wrapper. The model follows the code.
- **Sandbox switch.** `sandbox` is tested for truthiness. A string option such as `"false"`
  therefore selects the sandbox (`SandboxStringFalse`).
- **Failed status lookup.** If the lookup fails, `getPaymentStatus` reports `PENDING`, because
  an error record has no `status`. `cancelPayment` then goes on to refund or void.

## Model

All source paths are under `backoffice/src/modules/payment-paypal/`.

| member | source | states |
|---|---|---|
| Js.ToUpperCase | backoffice/src/modules/payment-paypal/services/paypal-provider.ts:99 | The result has the input's length. Each lower-case ASCII letter becomes its upper-case letter, and every other character is unchanged, so no lower-case letter is left. |
| HttpClient.BaseUrl | backoffice/src/modules/payment-paypal/core/paypal-http-client.ts:9-19 | The base URL is SANDBOX exactly when `options.sandbox` is truthy, and LIVE otherwise. |
| HttpClient.SandboxStringFalse | backoffice/src/modules/payment-paypal/core/paypal-http-client.ts:17-19 | A `sandbox` option holding the string "false" still selects SANDBOX. |
| HttpClient.RequestConfig | backoffice/src/modules/payment-paypal/core/paypal-http-client.ts:49-56 | The method defaults to POST and otherwise is the given one. The only headers are JSON content type and `Bearer <token>`, where an unset token prints as "undefined". URL and data are passed through, with no basic auth. |
| HttpClient.WithBearer | backoffice/src/modules/payment-paypal/core/paypal-http-client.ts:86-92 | The retried config keeps method, URL, auth, data and every other header. Its Authorization header is `Bearer <new token>`. |
| HttpClient.AuthConfig | backoffice/src/modules/payment-paypal/core/paypal-http-client.ts:114-124 | The grant request is a POST to the token path, with basic auth of `clientId`/`clientSecret`, only a form-encoded content type header, and the body `grant_type=client_credentials`. |
| HttpClient.TokenOf | backoffice/src/modules/payment-paypal/core/paypal-http-client.ts:129 | The stored token is the answer's `access_token`, and undefined exactly when the answer has no such field. |
| HttpClient.Wrapped | backoffice/src/modules/payment-paypal/core/paypal-http-client.ts:65-101 | With `retryCount > MAX_ATTEMPTS` it throws the "after 2 attempts" error and sends nothing. Otherwise it always sends a request, and its first request is the given config. It only appends to the request log, and sends at most `2*(MAX_ATTEMPTS - retryCount) + 1` requests. |
| HttpClient.Authentication | backoffice/src/modules/payment-paypal/core/paypal-http-client.ts:107-130 | Past the cap it rejects without a request. Otherwise it always sends a request, and its first request is the client-credentials grant with `clientId`/`clientSecret`. It keeps the same request budget as the wrapped call it makes. |
| HttpClient.RequestSendsAtMostFive | backoffice/src/modules/payment-paypal/core/paypal-http-client.ts:65-101 | A wrapped call started with retry count 0 sends at most five requests, whatever PayPal answers. |
| HttpClient.AuthenticationStoresToken | backoffice/src/modules/payment-paypal/core/paypal-http-client.ts:111-129 | When the grant is answered, authentication has sent exactly the grant. It has stored the answer's `access_token`, and nothing else changed. |
| HttpClient.FirstAnswerReturned | backoffice/src/modules/payment-paypal/core/paypal-http-client.ts:73-75 | A call answered on its first request returns the response's `data`. It has sent exactly that request and left the token unchanged. |
| HttpClient.OtherFailureRethrown | backoffice/src/modules/payment-paypal/core/paypal-http-client.ts:76-98 | A failure other than 401 is rethrown with its status. There is no authentication, no retry, and only the one request. |
| HttpClient.UnauthorizedGrantFailureRethrown | backoffice/src/modules/payment-paypal/core/paypal-http-client.ts:77-84 | When a 401 below the cap is followed by a grant request that fails with another status, that failure is rethrown. Exactly the call and the grant were sent, there is no retry, and the token is unchanged. |
| HttpClient.UnauthorizedRetriesOnce | backoffice/src/modules/payment-paypal/core/paypal-http-client.ts:77-96 | When the grant request is answered, a 401 below the cap leads to these requests, in order: the call, one grant request, and one retry of the original config with the granted token. The retry's outcome is the reply, and the token is the granted one. |
| HttpClient.UnauthorizedAtCapExhausted | backoffice/src/modules/payment-paypal/core/paypal-http-client.ts:67-84 | A 401 at retry count `MAX_ATTEMPTS` fails with the "after 2 attempts" error after its single request. |
| HttpClient.RetryCarriesCurrentToken | backoffice/src/modules/payment-paypal/core/paypal-http-client.ts:86-96 | If a call answered 401 ends with data, its last request was the original config carrying the token the client now holds. |
| HttpClient.NestedUnauthorizedResendsOriginal | backoffice/src/modules/payment-paypal/core/paypal-http-client.ts:65-130 | After a 401 on the grant request, the nested wrapper re-sends the original request, not the grant. The stored token comes from that request's answer. |
| HttpClient.NestedRetrySendsUndefinedBearer | backoffice/src/modules/payment-paypal/core/paypal-http-client.ts:77-96 | In the nested case, when the first re-send's answer has no `access_token`, the fifth request is the original with `Authorization: Bearer undefined`. Its outcome is the reply, and the client ends without a token. |
| HttpClient.FiveRequestsReachable | backoffice/src/modules/payment-paypal/core/paypal-http-client.ts:65-130 | A concrete script makes a top-level call send exactly five requests, so the bound is tight. |
| HttpClient.PaypalHttpClient.constructor | backoffice/src/modules/payment-paypal/core/paypal-http-client.ts:14-31 | Keeps the options and picks the base URL by `BaseUrl`. It starts with no token and no request sent. |
| HttpClient.PaypalHttpClient.Dispatch | backoffice/src/modules/payment-paypal/core/paypal-http-client.ts:25-30 | The bare axios method logs the request and takes the next scripted outcome. It never touches the token. |
| HttpClient.PaypalHttpClient.RetryIfNecessary | backoffice/src/modules/payment-paypal/core/paypal-http-client.ts:65-101 | Its reply and new state are those of `Wrapped` on the old state. It terminates by `MAX_ATTEMPTS + 1 - retryCount`. |
| HttpClient.PaypalHttpClient.Authenticate | backoffice/src/modules/payment-paypal/core/paypal-http-client.ts:107-130 | Its outcome and new state are those of `Authentication`. Only the token, the script and the request log change. |
| HttpClient.PaypalHttpClient.Request | backoffice/src/modules/payment-paypal/core/paypal-http-client.ts:40-58 | A wrapped call of `RequestConfig` with the token held before the call, with no original config and retry count 0. |
| Provider.ValidateOptions | backoffice/src/modules/payment-paypal/services/paypal-provider.ts:37-46 | Passes exactly when both credentials are defined. A missing `clientSecret` gives its message even if `clientId` is also missing. The `clientId` message comes only when `clientSecret` is present. |
| Provider.SessionStatusOf | backoffice/src/modules/payment-paypal/services/paypal-provider.ts:65-78 | CANCELED exactly for VOIDED and AUTHORIZED exactly for COMPLETED. REQUIRES_MORE exactly for SAVED, APPROVED or PAYER_ACTION_REQUIRED. PENDING for everything else, including a missing status. Never CAPTURED or ERROR. |
| Provider.IntentFor | backoffice/src/modules/payment-paypal/services/paypal-provider.ts:89-91 | The intent is CAPTURE exactly when the `capture` option is truthy, otherwise AUTHORIZE. |
| Provider.BuildError | backoffice/src/modules/payment-paypal/services/paypal-provider.ts:284-295 | `error` is the given message. `code` is the thrown value's code when it has one, else "". For an Error, `detail` is its message (or ""). For a provider error, `detail` is its error, a line break, then its detail (or ""). |
| Provider.SomeCaptured | backoffice/src/modules/payment-paypal/services/paypal-provider.ts:147-149 | The `.some` test is true exactly when some unit is captured and every unit before it has payments. It is false exactly when all units have payments and none is captured. In every other case it throws a TypeError. |
| Provider.FirstCaptureId | backoffice/src/modules/payment-paypal/services/paypal-provider.ts:152-154 | Yields the first unit's first capture id exactly when the first unit is captured; otherwise a TypeError. |
| Provider.FirstAuthorizationId | backoffice/src/modules/payment-paypal/services/paypal-provider.ts:157 | Yields the first unit's first authorization id exactly when it exists; otherwise a TypeError. |
| Provider.SessionAuthorizationId | backoffice/src/modules/payment-paypal/services/paypal-provider.ts:177 | The session's `purchase_units[0].payments.authorizations[0].id` is found exactly when the units exist and the first unit has an authorization. Otherwise a TypeError. |
| Provider.AlreadySettled | backoffice/src/modules/payment-paypal/services/paypal-provider.ts:135-139 | An order counts as settled when it is voided, or when it is completed and has a truthy invoice id. A settled order's session status is CANCELED or AUTHORIZED. |
| Provider.CancelDecision | backoffice/src/modules/payment-paypal/services/paypal-provider.ts:133-159 | Without an order there is nothing to do. A voided order, or a completed and invoiced one, is kept as it is. Otherwise, exactly when `.some` finds a capture and the first unit is captured, it refunds that unit's first capture. Exactly when `.some` finds no capture and the first unit has an authorization, it voids that authorization. It aborts with a TypeError in exactly the remaining cases: no units, `.some` throws, a capture only past the first unit, or no first authorization. |
| Provider.RefundDecision | backoffice/src/modules/payment-paypal/services/paypal-provider.ts:197-213 | It gives "Cannot refund an uncaptured payment" exactly when the units are non-empty, all have payments, and none is captured. It succeeds exactly when the first unit is captured, and then names that unit's first capture and its currency code. Any other failure is a TypeError. |
| Provider.Retrieval | backoffice/src/modules/payment-paypal/services/paypal-provider.ts:227-238 | Without a truthy session id it returns undefined and makes no call. Otherwise it makes exactly one `getOrder(id)` call. A resolved call returns PayPal's order, and a rejection becomes the retrievePayment error record. |
| Provider.StatusLookup | backoffice/src/modules/payment-paypal/services/paypal-provider.ts:59-79 | Rejects exactly when the session has no id. A found order gives its mapped status, and a failed lookup gives PENDING. It makes only the lookup's calls. |
| Provider.Authorization | backoffice/src/modules/payment-paypal/services/paypal-provider.ts:113-125 | Resolves exactly when the status lookup does. It then returns the input session data unchanged with that status. |
| Provider.Initiation | backoffice/src/modules/payment-paypal/services/paypal-provider.ts:81-111 | Makes exactly one `createOrder` call. It returns `{data: order}` with PayPal's order on success and the initiatePayment error record on a rejection. |
| Provider.InitiateSendsOneUnit | backoffice/src/modules/payment-paypal/services/paypal-provider.ts:89-103 | The single `createOrder` has intent CAPTURE exactly when `capture` is truthy, and exactly one purchase unit. Its `custom_id` is the session id, and its currency code is the upper-cased code with no lower-case letter. Its value is the smallest-unit conversion of the amount in the original currency code. |
| Provider.InitialUnit | backoffice/src/modules/payment-paypal/services/paypal-provider.ts:95-103 | The created unit carries the session id as `custom_id`, the upper-cased currency, the smallest-unit value, and no payments. |
| Provider.AfterAction | backoffice/src/modules/payment-paypal/services/paypal-provider.ts:151-167 | The call log gains the action, then exactly one lookup if the action succeeded. A success answers `{data: lookup}`; a rejected action answers the cancelPayment error record. |
| Provider.Cancellation | backoffice/src/modules/payment-paypal/services/paypal-provider.ts:127-168 | Without an order: `{data: undefined}` and no call. A settled order is returned as it is after the lookup alone. An abort gives the cancelPayment error record after the lookup alone. A refund or void continues as `AfterAction` from the state after the lookup. |
| Provider.CancelActsAtMostOnce | backoffice/src/modules/payment-paypal/services/paypal-provider.ts:133-159 | A cancellation makes exactly one refund-or-void call when its decision is to refund or void, and none otherwise. |
| Provider.Capture | backoffice/src/modules/payment-paypal/services/paypal-provider.ts:170-185 | Rejects with no call when the session has no first authorization. Otherwise it resolves. The call log gains the capture of that authorization, then one lookup if the capture succeeded and the session has an id. It resolves with the lookup's result, or with the capturePayment error record when the capture is rejected. |
| Provider.Refund | backoffice/src/modules/payment-paypal/services/paypal-provider.ts:193-225 | If the refund decision fails, it returns the refundPayment error record and makes no call at all. Otherwise the call log gains the refund of the decided capture, then one lookup if the refund succeeded and the session has an id. The refund amount is the smallest-unit conversion in the unit's currency. It returns the lookup's result, or the refundPayment error record when the refund is rejected. |
| Provider.RefundActsAtMostOnce | backoffice/src/modules/payment-paypal/services/paypal-provider.ts:193-225 | `refundPayment` sends exactly one refund when it decided on a capture, and none otherwise. |
| Provider.RefundUncapturedMakesNoCall | backoffice/src/modules/payment-paypal/services/paypal-provider.ts:204-210 | Refunding a session whose units all have payments and none is captured makes no call. It returns the error record with detail "Cannot refund an uncaptured payment" and an empty code. |
| Provider.Update | backoffice/src/modules/payment-paypal/services/paypal-provider.ts:240-268 | The call log gains `patchOrder(id, [replace amount at the default purchase unit])` with the upper-cased currency, then one lookup if the patch succeeded and the session has an id. A success answers `{data: lookup}`, and a rejection gives the updatePayment error record. |
| Provider.AmountPatch | backoffice/src/modules/payment-paypal/services/paypal-provider.ts:248-259 | The patch is one `replace` at the default purchase unit. Its amount is formatted exactly as initiatePayment formats an amount. |
| Provider.PayPalProviderService.constructor | backoffice/src/modules/payment-paypal/services/paypal-provider.ts:48-57 | Keeps the options. It has made no SDK call yet. |
| Provider.PayPalProviderService.Call | backoffice/src/modules/payment-paypal/services/paypal-provider.ts:54-56 | One call on the SDK instance is logged and takes the next scripted reply, leaving the rest of the state alone. |
| Provider.PayPalProviderService.GetPaymentStatus | backoffice/src/modules/payment-paypal/services/paypal-provider.ts:59-79 | Its result and SDK state are those of `StatusLookup`. |
| Provider.PayPalProviderService.InitiatePayment | backoffice/src/modules/payment-paypal/services/paypal-provider.ts:81-111 | Its result and SDK state are those of `Initiation`. |
| Provider.PayPalProviderService.AuthorizePayment | backoffice/src/modules/payment-paypal/services/paypal-provider.ts:113-125 | Its result and SDK state are those of `Authorization`. |
| Provider.PayPalProviderService.CancelPayment | backoffice/src/modules/payment-paypal/services/paypal-provider.ts:127-168 | Its result and SDK state are those of `Cancellation`. |
| Provider.PayPalProviderService.CapturePayment | backoffice/src/modules/payment-paypal/services/paypal-provider.ts:170-185 | Its result and SDK state are those of `Capture`. |
| Provider.PayPalProviderService.DeletePayment | backoffice/src/modules/payment-paypal/services/paypal-provider.ts:187-191 | Its result and SDK state are those of `Cancellation`, so it behaves identically to cancelPayment. |
| Provider.PayPalProviderService.RefundPayment | backoffice/src/modules/payment-paypal/services/paypal-provider.ts:193-225 | Its result and SDK state are those of `Refund`. |
| Provider.PayPalProviderService.RetrievePayment | backoffice/src/modules/payment-paypal/services/paypal-provider.ts:227-238 | Its result and SDK state are those of `Retrieval`. |
| Provider.PayPalProviderService.UpdatePayment | backoffice/src/modules/payment-paypal/services/paypal-provider.ts:240-268 | Its result and SDK state are those of `Update`. |

## Left out

- **The PayPal SDK, axios and the proxy mechanics.** They are outside this repository. Each
  external call is an abstract step with a scripted outcome. The proxy is modelled as "every
  client call goes through the wrapper". Of the client's axios methods, only `request` is
  modelled, because it is the only one this code calls.
- **Running out of scripted answers.** A request sent after the script is used up gets "no
  response" (the HTTP client) or a rejection with an empty error (the provider). This is a
  modelling choice, not source behaviour.
- **Async scheduling.** Every call is sequential. Promise rejection is a `Result` error, or the
  `Threw`/`Rejected` reply.
- **Webhooks.** `getWebhookActionAndData` only throws "not implemented", and `verifyWebhook`
  passes straight through to the SDK.
- **`console` logging.** Not modelled.
- **`os.EOL`.** It is fixed as "\n". On Windows it is "\r\n".
- **`getSmallestUnit`.** Not part of this model. Its result is the symbolic value
  `SmallestUnit(amount, currency)`.
- **`utils/round-to-two.ts`.** It formats floating-point numbers. Not part of this model.
- **Files without behaviour.** `medusa-config.ts` (environment plumbing), the module's
  `index.ts` (framework registration) and the storefront footer are not part of this model.
- **The module's `types` and `core/types`.** Not part of this model. Options, orders and
  purchase units carry only the fields the two core files read. The LIVE/SANDBOX base URLs and
  the token endpoint path are symbolic (`Environment`, `Url.AuthPath`).
- **HTTP response bodies.** They are flat JSON objects of strings. Axios errors carry only
  their HTTP status.
- **Thrown values.** An `Error` carries its message and an optional `code`. A code property
  that is present but `undefined`, or a numeric code, is not modelled. The framework's
  `isPaymentProviderError` check is the choice between the `JsError` and `ProviderFailure`
  constructors.
- **TypeErrors.** Every TypeError from reading a property of `undefined` is one value with a
  fixed message. The engine's exact message text is not modelled.
- **`toUpperCase`.** Modelled on ASCII letters only. Unicode case mapping is not modelled.
- **Default `retryCount`.** It is a `nat`, so a negative or non-numeric value passed from
  outside is not modelled.
