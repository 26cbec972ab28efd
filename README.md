# Razorpay payment processor for Medusa, modelled in Dafny

The adapter `RazorpayBase` connects the Medusa commerce platform to the
Razorpay gateway. It turns a checkout into a Razorpay order. Before it creates
the order, it reconciles the platform customer with a Razorpay customer: it
edits the customer the metadata links to, creates a customer when there is
none, and falls back to polling the customer listing. It also maps order
statuses to session statuses, captures authorized payments, refunds, retrieves
and updates sessions, and normalises errors. Two webhook handlers receive
Razorpay's `payment.failed` and `payment.captured` events and act on the
platform's orders.

## How the model is built

- **JavaScript values are written out as data.** `Option` stands for
  `undefined` (and for `null`, which the model does not tell apart). `Field` says whether an object has a key at all, which matters to
  `"code" in e`. `Eval` is a value or a `TypeError` from reading a property of
  `undefined`. `Coalesce` is `??`, `OrElse` is `||`, `Truthy` is JavaScript
  truthiness, and `Show` renders `undefined` inside a template string.
- **The gateway is a value.** `Gateway.Remote` holds the orders, payments and
  customers, which endpoints are failing, and the log of every call the adapter
  sent. Each endpoint is a pure step function. `Gateway.RazorpayClient` is the
  SDK object: a class whose methods apply those steps to its state.
- **The platform services** (customers, carts, orders) are classes over
  similar state (`Platform`, `Webhook`). The objects the adapter changes in
  place are classes too: the customer, the payment session data, the intent
  request and the payment context.
- **Each operation is a pure function over the state.** `ProcessorSpec`
  defines one for every operation of `RazorpayBase`, over a `World` of the
  gateway, the customer store and the customer object. Each method of the class
  `RazorpayAdapter.RazorpayBase` is proved to return that function's result and
  to leave that function's new state. `ProcessorProperties` proves what those
  functions mean.
- **The webhook handlers are methods** over an order service and a response
  object. Each is proved equal to a specification function, and lemmas state
  the decision table and how the two handlers differ.

### Behaviour kept as the code has it

- `updatePayment` reads `metadata.razopay` (sic), while the rest of the
  adapter writes `metadata.razorpay`. A customer linked only through the
  nested record therefore makes `updatePayment` throw a `TypeError`
  (`Requests.NestedLinkFailsUpdateRead`, `ProcessorProperties.UpdateRejectsNestedLink`).
- `refundPayment`'s `find` callback has a block body without `return`, so no
  payment is ever selected and no refund is ever sent. The model keeps the
  callback as written (`Requests.RefundCallbackAsWritten`) and proves that it
  never selects (`Requests.NoPaymentIsRefundable`,
  `ProcessorProperties.RefundNeverRefunds`). The refund branch is still
  modelled and proved (`ProcessorProperties.IssuedRefundIsRecorded`).
- `createRazorpayCustomer` catches its own errors, so the relinking `catch` in
  `createOrUpdateCustomer` (polling through `fetchOrPollForCustomer`) can
  never run. `fetchOrPollForCustomer` and `pollAndRetrieveCustomer` are
  modelled on their own.
- In `pollAndRetrieveCustomer`, every pass of the `do … while` either breaks
  or throws, so the loop is written as its single pass. Only the first page
  (`count` 10, `skip` 0) is ever listed (`ProcessorProperties.PollFirstPageOnly`).
- Both webhook handlers mark a failed payment's order through `order._id`,
  but capture through `order.id`. An order without `_id` makes the update
  reject, and no status is sent (`Webhook.FailedPaymentWithoutUnderscoreId`).
- In the default webhook handler, an object body is converted with
  `toString()` and parsed again. A `Buffer` (what the route's raw body parser
  gives) parses. An already parsed plain object gives `"[object Object]"`,
  which never parses, so the answer is 500 (`RazorpayHook.ParsedObjectAnswers500`).
- When re-initiating inside `updatePayment` answers an error, the result is
  `{session_data: {}}` rather than an error
  (`ProcessorProperties.UpdateReinitiatesInCurrency`).

### Behaviour a caller might not expect

- Sessions are looked up by `id` only, with no fallback to another key
  (`ProcessorProperties.RetrieveWithoutIdFails`).
- A failed customer creation is not an error of `initiatePayment`: the
  session data comes back unchanged, and no order is created.
- `updatePaymentData` refuses an amount or a currency. It writes the merged
  notes to the order whose id is the payment id, and otherwise passes the
  fetched payment through.
- When no payment is authorized, `capturePayment` sets `payments` to the
  empty object (`Some([])`).
- Polling never moves past the first page.
- `updatePayment` re-initiates with the fetched order's currency when the
  context gives none.

## Model

| member | source | states |
|---|---|---|
| `RazorpayTypes.ToUpper` | src/core/razorpay-base.ts:403 | upper-casing keeps the length, turns each of 'a'..'z' into its capital, leaves every other character as it was, and leaves no lower-case letter |
| `RazorpayTypes.ToUpperIdempotent` | src/core/razorpay-base.ts:403 | upper-casing twice gives what upper-casing once gives |
| `Requests.GetPaymentIntentOptions` | src/core/razorpay-base.ts:63-80 | `capture_method` and `setup_future_usage` are kept exactly when truthy, and the method types are passed through |
| `Requests.IntentOptionsIdempotent` | src/core/razorpay-base.ts:63-80 | filtering the options a second time changes nothing |
| `Requests.SignedMessageInjective` | src/core/razorpay-base.ts:87 | for ids without a bar, the signed message (order id, a bar, payment id) determines both ids |
| `StatusMapping.GetRazorpayPaymentStatus` | src/core/razorpay-base.ts:95-115 | error exactly when there is no order, and authorized for any order |
| `StatusMapping.StatusOfOrderTable` | src/core/razorpay-base.ts:123-136 | created → requires more; paid or attempted → authorized; anything else → pending; never error or canceled (each an iff) |
| `ProcessorProperties.PaymentStatusOfSessionOrder` | src/core/razorpay-base.ts:117-137 | one fetch of the session's order; success exactly when it exists and is served; a failed fetch throws the gateway's error |
| `RazorpayAdapter.RazorpayBase.GetPaymentStatus` | src/core/razorpay-base.ts:117-137 | result and client state equal `PaymentStatusSpec` |
| `Requests.MetadataWithEntry` | src/core/razorpay-base.ts:144-166 | the metadata sent has `razorpay[name] = value`, keeps every other nested key and every other metadata field; only the nested record when there was no metadata |
| `Requests.CustomerAfterEntry` | src/core/razorpay-base.ts:145-151 | the customer object changes in place only when the nested record already existed |
| `ProcessorProperties.MetadataUpdateWritesOnce` | src/core/razorpay-base.ts:139-168 | exactly one write to the customer store with that metadata, no gateway call, and success iff the store holds the customer |
| `RazorpayAdapter.RazorpayBase.UpdateRazorpayMetadatainCustomer` | src/core/razorpay-base.ts:139-168 | result, store and customer object equal `UpdateMetadataSpec` |
| `Requests.ExistingRemoteId` | src/core/razorpay-base.ts:181-183 | a truthy `razorpay_id` wins; otherwise the nested `razorpay.rp_customer_id` is read, which is a TypeError when the nested record is absent; absent metadata is a TypeError |
| `Requests.SetNote` | src/core/razorpay-base.ts:184 | the note reads back as the value assigned, and the other notes are unchanged |
| `Requests.EditPatch` | src/core/razorpay-base.ts:193-207 | the edit patch is a TypeError exactly when the cart has no billing address |
| `Requests.EditPatchPrecedence` | src/core/razorpay-base.ts:193-207 | the cart's email and billing phone take precedence over the customer's; a falsy customer phone (undefined or empty) falls back to the customer's billing phone, then to the gateway record's contact; two billing names give the name |
| `ProcessorProperties.EditExistingCalls` | src/core/razorpay-base.ts:174-224 | editing sends only customer fetches or edits, and writes no metadata |
| `ProcessorProperties.EditExistingOutcomes` | src/core/razorpay-base.ts:174-224 | the notes get the linked id; a failed fetch gives nothing; an edit failure gives the fetched record; a returned customer has the linked id |
| `RazorpayAdapter.RazorpayBase.EditExistingRpCustomer` | src/core/razorpay-base.ts:174-224 | result, state and request notes equal `EditExistingSpec`, and the rest of the request is unchanged |
| `Requests.CreateBody` | src/core/razorpay-base.ts:234-251 | the create body carries the given email and `fail_existing` 0; it is a TypeError exactly when there is no billing address, or no customer while a billing phone or name is missing; contact is the billing phone, else the customer's phone, else the customer's billing phone; gstin is the billing address's, else the metadata's; each name is the billing address's, else the customer's, else "" |
| `Gateway.CreateCustomerStep` | src/core/razorpay-base.ts:252 | the create call is logged, and a created customer's id is new |
| `ProcessorProperties.CreateCustomerEffects` | src/core/razorpay-base.ts:226-269 | one create call when the body can be built; a created id is fresh and goes into the notes; it is written into the metadata once, exactly when there is a customer and the cart names one |
| `RazorpayAdapter.RazorpayBase.CreateRazorpayCustomer` | src/core/razorpay-base.ts:226-269 | result, state and request notes equal `CreateCustomerSpec` |
| `Requests.FindMatching` | src/core/razorpay-base.ts:286-287 | the first listed customer matching phone or email, or none when nothing matches |
| `Requests.PickCustomer` | src/core/razorpay-base.ts:285-288 | nothing exactly when the page is absent or empty; otherwise a listed customer |
| `Requests.PickPrefersMatch` | src/core/razorpay-base.ts:285-288 | a page with a match yields its first match; a page without one yields its first customer |
| `ProcessorProperties.PollFirstPageOnly` | src/core/razorpay-base.ts:271-304 | a single listing with count 10 and skip 0; an empty page throws; a picked customer is written into the metadata and returned |
| `RazorpayAdapter.RazorpayBase.PollAndRetrieveCustomer` | src/core/razorpay-base.ts:271-304 | result and state equal `PollSpec` |
| `ProcessorProperties.FetchOrPollCases` | src/core/razorpay-base.ts:306-328 | no metadata or nested record: nothing found, nothing sent; a truthy nested id: one fetch, store and customer untouched, and the gateway's customer of that id iff the fetch succeeds; otherwise one listing of the first page, and nothing found when the poll throws |
| `RazorpayAdapter.RazorpayBase.FetchOrPollForCustomer` | src/core/razorpay-base.ts:306-328 | result and state equal `FetchOrPollSpec`, which `FetchOrPollCases` characterises |
| `ProcessorProperties.ReconcileCalls` | src/core/razorpay-base.ts:330-385 | a missing cart changes nothing; otherwise only customer fetch, edit and create calls are sent, never a listing |
| `ProcessorProperties.ReconcileNotesCarryId` | src/core/razorpay-base.ts:341-367 | a customer found or created has its id in the request's notes |
| `Requests.HasExistingRemoteId` | src/core/razorpay-base.ts:341-344 | the edit path is taken exactly when the metadata has a truthy `razorpay_id`, or a nested record with a truthy `rp_customer_id` |
| `ProcessorProperties.ReconcileChoosesOnePath` | src/core/razorpay-base.ts:341-367 | a linked customer that editing returns is the answer; a linked customer whose edit gives nothing goes on to creation from the state and notes editing left; an unlinked customer goes straight to creation |
| `RazorpayAdapter.RazorpayBase.CreateOrUpdateCustomer` | src/core/razorpay-base.ts:330-385 | result, state and request notes equal `ReconcileSpec` over the cart service's carts |
| `Requests.BuildOrderRequest` | src/core/razorpay-base.ts:400-414 | the amount, the currency upper-cased, the session notes with `resource_id` on top, automatic capture iff the option is set, each capture option as configured or else its default, and the intent options |
| `Requests.OrderRequestDefaults` | src/core/razorpay-base.ts:407-411 | unset options give refund speed "normal" and expiry periods 5 and 10 |
| `Requests.UpdateRequestsFor` | src/core/razorpay-base.ts:441-447 | update requests are absent exactly when the customer has a truthy `razorpay_id`; otherwise they carry the notes' id |
| `ProcessorProperties.InitiateNeedsCurrency` | src/core/razorpay-base.ts:403 | with no currency code, `initiatePayment` throws a TypeError and nothing is sent |
| `ProcessorProperties.InitiateCreatesOrderOnlyForCustomer` | src/core/razorpay-base.ts:387-449 | an order is created iff a customer was found, with the customer's id in its notes and a fresh id, the amount and the upper-cased currency; otherwise the input session comes back; every successful answer carries the update requests for the customer and the notes' id |
| `Gateway.CreateOrderStep` | src/core/razorpay-base.ts:425 | the create call is logged; it succeeds iff the endpoint serves; a created order's id is new |
| `RazorpayAdapter.RazorpayBase.InitiatePayment` | src/core/razorpay-base.ts:387-449 | result, state and customer object equal `InitiateSpec` |
| `ProcessorProperties.AuthorizeAnswersInput` | src/core/razorpay-base.ts:451-463 | authorization answers the input data with the session's status, and throws iff the status does |
| `RazorpayAdapter.RazorpayBase.AuthorizePayment` | src/core/razorpay-base.ts:451-463 | result and client state equal `AuthorizeSpec` |
| `ErrorHandling.CancelPayment` | src/core/razorpay-base.ts:465-475 | always the unsupported-operation error "Unable to cancel as razorpay doesn't support cancellation", with no detail key |
| `ErrorHandling.CancelIgnoresSession` | src/core/razorpay-base.ts:465-475 | the answer does not depend on the session |
| `ErrorHandling.DeletePayment` | src/core/razorpay-base.ts:510-516 | delete answers what cancel answers |
| `Requests.AuthorizedOnly` | src/core/razorpay-base.ts:486-488 | exactly the authorized payments are kept |
| `Requests.AuthorizedOnlyCounts` | src/core/razorpay-base.ts:486-488 | each authorized payment is kept as many times as it is listed, and every other payment zero times |
| `Requests.AuthorizedOnlyAppend` | src/core/razorpay-base.ts:486-488 | the filter keeps the listing's order: filtering a concatenation concatenates the filtered parts |
| `Requests.ByIdEntries` | src/core/razorpay-base.ts:501-504 | the reduced object has distinct keys, one per payment id, each holding the last payment with that id |
| `ProcessorProperties.CaptureAllSendsEvery` | src/core/razorpay-base.ts:489-500 | one capture per payment is sent, each with the payment's own amount and currency; without a failure every payment comes back captured, in order |
| `ProcessorProperties.CaptureSessionPayments` | src/core/razorpay-base.ts:477-508 | the session is unchanged on failure or absent items; otherwise the captures follow the authorized payments in order, and `payments` has distinct keys, a key for every authorized payment and no other, each holding that payment's captured record; empty when none is authorized |
| `RazorpayAdapter.RazorpayBase.CapturePayment` | src/core/razorpay-base.ts:477-508 | the rejection and the session data afterwards equal `CaptureSpec`; the loops keep the spec on each prefix |
| `ProcessorProperties.FetchAllSendsEvery` | src/core/razorpay-base.ts:529-534 | every listed payment is fetched, and nothing else changes |
| `Requests.NoPaymentIsRefundable` | src/core/razorpay-base.ts:535-537 | the callback as written selects no payment |
| `ProcessorProperties.RefundNeverRefunds` | src/core/razorpay-base.ts:518-560 | when the fetches succeed, the session comes back unchanged and no refund call is sent |
| `Requests.AppendRefund` | src/core/razorpay-base.ts:548-554 | the refund goes after the refunds already issued, or starts the list |
| `ProcessorProperties.IssuedRefundIsRecorded` | src/core/razorpay-base.ts:540-557 | the refund asks for the refund amount and is appended to the session's refunds; a failure is the refund error |
| `RazorpayAdapter.RazorpayBase.RefundPayment` | src/core/razorpay-base.ts:518-560 | the outcome and the session object equal `RefundSpec` |
| `ProcessorProperties.RetrieveAfterCreate` | src/core/razorpay-base.ts:562-575 | an order created by the gateway is retrieved back unchanged |
| `ProcessorProperties.RetrieveWithoutIdFails` | src/core/razorpay-base.ts:567-574 | a session without an id fails with the retrieve error |
| `RazorpayAdapter.RazorpayBase.RetrievePayment` | src/core/razorpay-base.ts:562-575 | result and client state equal `RetrieveSpec` |
| `ProcessorProperties.UpdateWithoutCustomer` | src/core/razorpay-base.ts:589-591 | no customer: nothing is answered and nothing is sent |
| `Requests.UpdatePaymentRemoteId` | src/core/razorpay-base.ts:585-587 | no customer or metadata reads undefined; a truthy `razorpay_id` wins; otherwise the misspelt `razopay` record's `rp_customer_id` is read, a TypeError exactly when that key is absent |
| `Requests.NestedLinkFailsUpdateRead` | src/core/razorpay-base.ts:585-587 | a customer linked only through `razorpay.rp_customer_id` makes the `razopay` read fail |
| `ProcessorProperties.UpdateRejectsNestedLink` | src/core/razorpay-base.ts:585-587 | such a customer makes `updatePayment` throw before any call is sent |
| `ProcessorProperties.UpdateNewCustomerNeedsPhone` | src/core/razorpay-base.ts:593-605 | a different customer without a phone throws the cart-incompatible error |
| `ProcessorProperties.UpdateNewCustomerReinitiates` | src/core/razorpay-base.ts:606-614 | a different customer with a phone gets the initiation result, with an initiation error wrapped around its message and detail |
| `ProcessorProperties.UpdateNothingRequested` | src/core/razorpay-base.ts:616-618 | the same customer with neither amount nor currency: nothing is answered and nothing is sent |
| `ProcessorProperties.UpdateReinitiatesInCurrency` | src/core/razorpay-base.ts:620-637 | the order is fetched; the context currency becomes the requested one upper-cased, else the order's; a new session is initiated in it without update requests; failures become the update error |
| `ProcessorSpec.UpperOr` | src/core/razorpay-base.ts:628-629 | a given currency comes back with no lower-case letter and its length (unchanged when already in capitals); only a missing one falls back to the order's |
| `RazorpayAdapter.RazorpayBase.UpdatePayment` | src/core/razorpay-base.ts:577-639 | result, state, customer object and context currency equal `UpdateSpec` |
| `ProcessorProperties.UpdateDataRefusesAmount` | src/core/razorpay-base.ts:649-654 | an amount or currency is refused with the "use updatePayment" detail, before any call |
| `ProcessorProperties.UpdateDataMergesNotes` | src/core/razorpay-base.ts:655-659 | new notes override the payment's notes, the others are kept, and the merge is written to the order of that id |
| `RazorpayAdapter.RazorpayBase.UpdatePaymentData` | src/core/razorpay-base.ts:641-668 | result and client state equal `UpdateDataSpec` |
| `ErrorHandling.BuildError` | src/core/razorpay-base.ts:686-699 | the error is the message; the code is passed through, or "" when missing; the detail of a processor error is its error, a line break and its detail (or ""); any other cause passes its `detail` key on when it has one, else its message (or "") |
| `ErrorHandling.WrappedErrorNestsDetail` | src/core/razorpay-base.ts:690-693 | wrapping a processor error gives its error, a newline, and its detail |
| `ErrorHandling.PlainFailureReportsMessage` | src/core/razorpay-base.ts:690-695 | a plain error without a detail key reports its message as the detail |
| `Webhook.RetrieveStep` | src/api/hooks/razorpay.ts:67-69 | the lookup is logged, and it finds the cart's order exactly when one is recorded |
| `Webhook.DecideTable` | src/api/hooks/razorpay.ts:71-100 | failed → 200, marking a found order through `_id`; captured → capture through `id` and 200 iff the order is found and not yet captured, else 404; any other event → 204 (each an iff) |
| `Webhook.Dispatch` | src/api/hooks/razorpay.ts:65-100 | the finish, the order service state and the statuses sent equal `DispatchSpec` |
| `Webhook.DispatchTouchesFoundOrderOnly` | src/api/hooks/razorpay.ts:71-98 | only the order that was found can change; for other events nothing changes |
| `Webhook.DispatchOneStatus` | src/api/hooks/razorpay.ts:71-100 | exactly one status unless an order action is rejected, and then none; at most the lookup and one action are sent |
| `Webhook.FailedPaymentMarksOrder` | src/api/hooks/razorpay.ts:76-83 | a found order with `_id` is marked `requires_action`, then 200 |
| `Webhook.FailedPaymentWithoutUnderscoreId` | src/api/hooks/razorpay.ts:78-81 | an order without `_id` makes the update reject, and nothing is sent |
| `Webhook.CapturedPaymentCapturesOnce` | src/api/hooks/razorpay.ts:87-90 | one capture of the found order's `id`; 200 with the payment captured iff the capture succeeds |
| `Webhook.CapturedPaymentRetriesLater` | src/api/hooks/razorpay.ts:88-92 | no order, or one already captured: 404 and no action |
| `Webhook.OtherEventIgnored` | src/api/hooks/razorpay.ts:95-97 | any other event: 204, and the lookup is the only call |
| `RazorpayHook.CorrelationId` | src/api/hooks/razorpay.ts:60-62 | `cart_id` when present, else `resource_id`, else undefined |
| `RazorpayHook.ReadBody` | src/api/hooks/razorpay.ts:11-56 | 400 exactly for a refused signature; 500 exactly for a throwing validator or an object body that does not parse; a string body that does not parse escapes with the parse error; otherwise the parsed data goes on |
| `RazorpayHook.RefusedSignatureAnswers400` | src/api/hooks/razorpay.ts:16-25 | a refused signature answers 400, and the order service is not called |
| `RazorpayHook.ThrowingValidatorAnswers500` | src/api/hooks/razorpay.ts:30-34 | a throwing validator answers 500, and the order service is not called |
| `RazorpayHook.ParsedObjectAnswers500` | src/api/hooks/razorpay.ts:26-33 | an already parsed object body always answers 500 (400 when the signature is refused), before any lookup |
| `RazorpayHook.ParsedBodyDispatches` | src/api/hooks/razorpay.ts:55-62 | a verified body that parses reaches the event switch with the notes' correlation id |
| `RazorpayHook.OneStatusPerRequest` | src/api/hooks/razorpay.ts:4-101 | exactly one status per request unless it is rejected; the order service is untouched unless the signature is valid |
| `RazorpayHook.HandleHook` | src/api/hooks/razorpay.ts:4-101 | the finish, the order service state and the statuses sent equal `HookSpec` |
| `LegacyHook.HandleLegacyHook` | src/api/routes/hooks/razorpay.js:3-60 | the finish, the order service state and the statuses sent equal `LegacyHookSpec` |
| `LegacyHook.RefusedSignatureIsSilent` | src/api/routes/hooks/razorpay.js:11-16 | a refused signature returns with no response and no order call |
| `LegacyHook.AtMostOneStatus` | src/api/routes/hooks/razorpay.js:11-59 | at most one status, only for a valid signature; orders are untouched otherwise |
| `LegacyHook.NoCartIdFindsNoOrder` | src/api/routes/hooks/razorpay.js:20-25 | without `cart_id` no order is found, whatever `resource_id` says: failed → 200, captured → 404 |
| `LegacyHook.HandlersAgreeOnCartId` | src/api/routes/hooks/razorpay.js:18-59 | with a `cart_id`, both handlers do the same for an accepted, parseable body |
| `LegacyHook.HandlersDifferOnResourceId` | src/api/routes/hooks/razorpay.js:20 | for a captured payment correlated by `resource_id` only, the default handler captures and answers 200; the legacy one answers 404 |
| `LegacyHook.HandlersDifferOnThrowingValidator` | src/api/routes/hooks/razorpay.js:11 | a throwing validator gives 500 in the default handler; the legacy handler's promise is rejected |

## Left out

- The HMAC-SHA256 computation (RFC 2104) of `_validateSignature` and of the
  SDK's `validateWebhookSignature`. The first takes the keyed hash as a
  function parameter, keeping only the `order_id|payment_id` message shape.
  The webhook handlers take the validator's verdict as an input.
- `constructWebhookEvent`: it only calls the SDK's webhook validator with the
  configured secret, which is the HMAC above. Neither handler calls it.
- `init` and the SDK's HTTP transport. The gateway's rules for when a call
  succeeds, and the identifiers it hands out, are stand-ins for the service.
  The model only relies on calls being logged, failures being possible and
  ids being fresh.
- The behaviour of the platform's customer, cart and order services beyond
  retrieve, update and capture succeeding or failing. Medusa's own merging of
  metadata inside `customerService.update` is not modelled: the write records
  the metadata sent.
- `isPaymentProcessorError` is Medusa's, and its code is not part of this
  model. It is taken to test for a truthy `error`, `code` or `detail`.
- `Math.round` on a fractional amount: amounts are whole minor units.
- The `updated_at` timestamp in the customer-create notes, which is clock
  input.
- Logging. JSON parsing: its result, or its failure, is an input of the
  default webhook handler. The legacy handler is given the parsed body.
- The lodash `_.isObject` body test: the body's kind is an input instead.
- The route registration in src/api/hooks/index.ts.
- The thin subclasses that only supply intent options.
- `null` is not told apart from `undefined`: `Option`'s `None` stands for
  both. `??`, `?.` and truthiness treat the two alike, but a template string
  does not. `RazorpayTypes.Show` writes "undefined" where the source writes
  "null", so a name that is null both on the billing address and on the
  customer is edited to "null null" by the source and to
  "undefined undefined" by `Requests.EditPatch`.
- Non-ASCII case mapping in `toUpperCase`: `ToUpper` maps ASCII letters only.
- How the gateway treats `fail_existing: 0`.
- `Promise.all` in `capturePayment` and `refundPayment` is concurrent. The
  model runs the calls in order. Every call is still issued, and the first
  failure in that order is the one reported.
- `RazorpayAdapter.RazorpayBase.PollAndRetrieveCustomer`: takes a defined
  customer object. Its only caller, `fetchOrPollForCustomer`, reads
  `customer.metadata` first, so an undefined customer never reaches it.
- `ProcessorProperties.CaptureAllSendsEvery`: assumes, for its captured-ids
  clause, that the gateway files each payment under its own id
  (`PaymentsKeyed`). The gateway's bookkeeping is not modelled beyond that.
