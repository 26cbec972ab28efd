/**
 * What each stateful operation of the adapter does, as a function of the
 * state before it: the gateway account, the customer store and the customer
 * object (a `World`), the notes of the order request being built, and the
 * operation's inputs. The methods of `RazorpayBase` are proved to do exactly
 * this; the lemmas in `processor_lemmas.dfy` state what it means.
 */
module ProcessorSpec {
  import opened RazorpayTypes
  import opened Gateway
  import opened Platform
  import opened ErrorHandling
  import opened StatusMapping
  import opened Requests

  datatype World = World(remote: Remote, store: CustomerStore, customer: Option<CustomerData>)

  /** The inputs of `initiatePayment` and `updatePayment` taken from the payment context. */
  datatype Context = Context(email: string, currency_code: Option<string>, amount: int,
                             resource_id: string, session: SessionData)

  /** `authorizePayment`'s answer. */
  datatype Authorization = Authorization(status: SessionStatus, data: SessionData)

  /** The `data` argument of `updatePaymentData`. */
  datatype DataPatch = DataPatch(amount: Option<int>, currency: Option<string>, notes: Option<map<string, string>>)

  /** What `updatePaymentData` answers: the fetched payment, or the edited order. */
  datatype Record = PaymentRecord(payment: RemotePayment) | OrderRecord(order: SessionData)

  const InitiateFailed: string := "An error occurred in InitiatePayment during the creation of the razorpay payment intent"
  const RefundFailed: string := "An error occurred in refundPayment"
  const RetrieveFailed: string := "An error occurred in retrievePayment"
  const UpdateInitiateFailed: string :=
    "An error occurred in updatePayment during the initiate of the new payment for the new customer"
  const UpdateFailed: string := "An error occurred in updatePayment"
  const UpdateDataFailed: string := "An error occurred in updatePaymentData"

  const NoCustomers: Cause := Cause(None, Missing, Missing, Some("no customers and cant create customers in razorpay"))
  const PhoneMissing: Cause := PlatformError("Phone number not found in context", Some("cart_incompatible_state"))
  const AmountUpdateRefused: Cause := PlatformError("Cannot update amount, use updatePayment instead", None)

  /** The page size of `pollAndRetrieveCustomer`. */
  const PageSize: nat := 10

  // ----- Customer reconciliation -----

  /** `updateRazorpayMetadatainCustomer(customer, name, value)` */
  function UpdateMetadataSpec(w: World, name: string, value: string): (Outcome<CustomerData>, World) {
    match w.customer
    case None => (Thrown(TypeErrorCause), w)
    case Some(c) =>
      var (r, s) := UpdateCustomerStep(w.store, c.id, MetadataWithEntry(c.metadata, name, value));
      (r, w.(store := s, customer := Some(CustomerAfterEntry(c, name, value))))
  }

  /** `editExistingRpCustomer(customer, cart, intentRequest)` */
  function EditExistingSpec(w: World, notes: map<string, string>, cart: Cart)
    : (Outcome<Option<RemoteCustomer>>, World, map<string, string>)
  {
    if w.customer.None? || ExistingRemoteId(w.customer.value).Fault? then (Thrown(TypeErrorCause), w, notes)
    else
      var c := w.customer.value;
      var notes1 := SetNote(notes, "razorpay_id", ExistingRemoteId(c).v);
      var (fetched, g1) := FetchCustomerStep(w.remote, Lookup(notes1, "razorpay_id"));
      if fetched.Thrown? then (Ok(None), w.(remote := g1), notes1)
      else
        var patch := EditPatch(cart, c, fetched.value);
        if patch.Fault? then (Ok(None), w.(remote := g1), notes1)
        else
          var (edited, g2) := EditCustomerStep(g1, fetched.value.id, patch.v);
          (Ok(Some(if edited.Ok? then edited.value else fetched.value)), w.(remote := g2), notes1)
  }

  /** `createRazorpayCustomer(customer, cart, email, intentRequest)`, which swallows every failure. */
  function CreateCustomerSpec(w: World, notes: map<string, string>, cart: Cart, email: string)
    : (Option<RemoteCustomer>, World, map<string, string>)
  {
    var body := CreateBody(cart, w.customer, email);
    if body.Fault? then (None, w, notes)
    else
      var (created, g1) := CreateCustomerStep(w.remote, body.v);
      if created.Thrown? then (None, w.(remote := g1), notes)
      else
        var rc := created.value;
        var w1 := w.(remote := g1);
        var notes1 := SetNote(notes, "razorpay_id", Some(rc.id));
        if w.customer.Some? && Truthy(cart.customer_id) then
          var (u, w2) := UpdateMetadataSpec(w1, "rp_customer_id", rc.id);
          (if u.Ok? then Some(rc) else None, w2, notes1)
        else (Some(rc), w1, notes1)
  }

  /**
   * `pollAndRetrieveCustomer(customer)`. Every pass of its loop either breaks
   * or throws, so it lists one page only.
   */
  function PollSpec(w: World): (Outcome<RemoteCustomer>, World)
    requires w.customer.Some?
  {
    var (listed, g1) := ListCustomersStep(w.remote, PageSize, 0);
    var w1 := w.(remote := g1);
    if listed.Thrown? then (Thrown(listed.cause), w1)
    else
      var picked := PickCustomer(listed.value, w.customer.value);
      if picked.None? then (Thrown(NoCustomers), w1)
      else
        var (u, w2) := UpdateMetadataSpec(w1, "rp_customer_id", picked.value.id);
        (if u.Ok? then Ok(picked.value) else Thrown(u.cause), w2)
  }

  /** `fetchOrPollForCustomer(customer)`, which swallows every failure. */
  function FetchOrPollSpec(w: World): (Option<RemoteCustomer>, World) {
    if w.customer.None? || w.customer.value.metadata.None? || w.customer.value.metadata.value.razorpay.None? then
      (None, w)
    else
      var id := Lookup(w.customer.value.metadata.value.razorpay.value, "rp_customer_id");
      if Truthy(id) then
        var (fetched, g1) := FetchCustomerStep(w.remote, id);
        (if fetched.Ok? then Some(fetched.value) else None, w.(remote := g1))
      else
        var (polled, w1) := PollSpec(w);
        (if polled.Ok? then Some(polled.value) else None, w1)
  }

  /**
   * `createOrUpdateCustomer(intentRequest, customer, email, cartId)`: edit the
   * linked gateway customer if there is one, create one otherwise. Creation
   * never throws, so the relinking fallback after it never runs.
   */
  function ReconcileSpec(w: World, notes: map<string, string>, carts: map<string, Cart>, email: string, cartId: string)
    : (Option<RemoteCustomer>, World, map<string, string>)
  {
    var cart := RetrieveCart(carts, cartId);
    if cart.Thrown? then (None, w, notes)
    else
      var (edited, w1, notes1) :=
        if HasExistingRemoteId(w.customer) then EditExistingSpec(w, notes, cart.value) else (Ok(None), w, notes);
      var found := if edited.Ok? then edited.value else None;
      if found.Some? then (found, w1, notes1)
      else CreateCustomerSpec(w1, notes1, cart.value, email)
  }

  // ----- Sessions -----

  /** `initiatePayment(context)` */
  function InitiateSpec(cfg: Config, carts: map<string, Cart>, w: World, ctx: Context)
    : (Outcome<Result<SessionResponse>>, World)
  {
    if ctx.currency_code.None? then (Thrown(TypeErrorCause), w)
    else
      var req := BuildOrderRequest(cfg, ctx.amount, ctx.currency_code.value, ctx.resource_id, ctx.session.notes);
      var (rc, w1, notes) := ReconcileSpec(w, req.notes, carts, ctx.email, ctx.resource_id);
      var updates := UpdateRequestsFor(w1.customer, notes);
      if rc.None? then (Ok(Success(SessionResponse(ctx.session, updates))), w1)
      else
        var (created, g) := CreateOrderStep(w1.remote, req.(notes := notes));
        if created.Thrown? then (Ok(Failure(BuildError(InitiateFailed, created.cause))), w1.(remote := g))
        else (Ok(Success(SessionResponse(created.value, updates))), w1.(remote := g))
  }

  /**
   * `currency_code?.toUpperCase() ?? fallback`: a given code comes back
   * upper-cased (one already in capitals, unchanged); only a missing code
   * falls back.
   */
  function UpperOr(code: Option<string>, fallback: Option<string>): (r: Option<string>)
    ensures code.None? ==> r == fallback
    ensures code.Some? ==> r.Some? && |r.value| == |code.value|
                           && forall i :: 0 <= i < |r.value| ==> !('a' <= r.value[i] <= 'z')
    ensures code.Some? && (forall i :: 0 <= i < |code.value| ==> !('a' <= code.value[i] <= 'z')) ==> r == code
  {
    if code.Some? then
      var u := ToUpper(code.value);
      assert (forall i :: 0 <= i < |code.value| ==> !('a' <= code.value[i] <= 'z')) ==> u == code.value;
      Some(u)
    else fallback
  }

  /**
   * `updatePayment(context)`: nothing without a customer; a new session when
   * the customer's gateway id differs from the session's; nothing when
   * neither amount nor currency is given; otherwise a new session in the
   * requested currency, or the current order's. The third component is the
   * context's `currency_code` afterwards.
   */
  function UpdateSpec(cfg: Config, carts: map<string, Cart>, w: World, ctx: Context)
    : (Outcome<Option<Result<SessionResponse>>>, World, Option<string>)
  {
    var cart := RetrieveCart(carts, ctx.resource_id);
    var rid := UpdatePaymentRemoteId(w.customer);
    if cart.Thrown? then (Thrown(cart.cause), w, ctx.currency_code)
    else if rid.Fault? then (Thrown(TypeErrorCause), w, ctx.currency_code)
    else if w.customer.None? then (Ok(None), w, ctx.currency_code)
    else if rid.v != ctx.session.customer_id then
      var c := w.customer.value;
      var phone := Coalesce(BillingPhone(cart.value.billing_address), Coalesce(c.phone, BillingPhone(c.billing_address)));
      if !Truthy(phone) then (Thrown(PhoneMissing), w, ctx.currency_code)
      else
        var (r, w1) := InitiateSpec(cfg, carts, w, ctx);
        if r.Thrown? then (Thrown(r.cause), w1, ctx.currency_code)
        else if r.value.Failure? then
          (Ok(Some(Failure(BuildError(UpdateInitiateFailed, AsCause(r.value.error))))), w1, ctx.currency_code)
        else (Ok(Some(r.value)), w1, ctx.currency_code)
    else if ctx.amount == 0 && !Truthy(ctx.currency_code) then (Ok(None), w, ctx.currency_code)
    else
      var (fetched, g1) := FetchOrderStep(w.remote, ctx.session.id);
      if fetched.Thrown? then (Ok(Some(Failure(BuildError(UpdateFailed, fetched.cause)))), w.(remote := g1), ctx.currency_code)
      else
        var order := fetched.value.(id := None, created_at := None);
        var currency := UpperOr(ctx.currency_code, order.currency);
        var (r, w1) := InitiateSpec(cfg, carts, w.(remote := g1), ctx.(currency_code := currency));
        if r.Thrown? then (Ok(Some(Failure(BuildError(UpdateFailed, r.cause)))), w1, currency)
        else
          var data := if r.value.Success? then r.value.value.session_data else EmptySession;
          (Ok(Some(Success(SessionResponse(data, None)))), w1, currency)
  }

  /** `getPaymentStatus(paymentSessionData)` */
  function PaymentStatusSpec(g: Remote, session: SessionData): (Outcome<SessionStatus>, Remote) {
    var (fetched, g1) := FetchOrderStep(g, session.id);
    (if fetched.Ok? then Ok(StatusOfOrder(fetched.value)) else Thrown(fetched.cause), g1)
  }

  /** `authorizePayment(paymentSessionData)` */
  function AuthorizeSpec(g: Remote, session: SessionData): (Outcome<Authorization>, Remote) {
    var (status, g1) := PaymentStatusSpec(g, session);
    (if status.Ok? then Ok(Authorization(status.value, session)) else Thrown(status.cause), g1)
  }

  /** `retrievePayment(paymentSessionData)` */
  function RetrieveSpec(g: Remote, session: SessionData): (Result<SessionData>, Remote) {
    var (fetched, g1) := FetchOrderStep(g, session.id);
    (if fetched.Ok? then Success(fetched.value) else Failure(BuildError(RetrieveFailed, fetched.cause)), g1)
  }

  /** JavaScript truthiness of a number that may be undefined. */
  predicate TruthyAmount(a: Option<int>) {
    a.Some? && a.value != 0
  }

  /** `updatePaymentData(sessionId, data)` */
  function UpdateDataSpec(g: Remote, sessionId: string, data: DataPatch): (Result<Record>, Remote) {
    if TruthyAmount(data.amount) || Truthy(data.currency) then (Failure(BuildError(UpdateDataFailed, AmountUpdateRefused)), g)
    else
      var (fetched, g1) := FetchPaymentStep(g, sessionId);
      if fetched.Thrown? then (Failure(BuildError(UpdateDataFailed, fetched.cause)), g1)
      else if data.notes.None? then (Success(PaymentRecord(fetched.value)), g1)
      else
        var (edited, g2) := EditOrderStep(g1, sessionId, fetched.value.notes.GetOr(map[]) + data.notes.value);
        (if edited.Ok? then Success(OrderRecord(edited.value)) else Failure(BuildError(UpdateDataFailed, edited.cause)), g2)
  }

  // ----- Capture -----

  /**
   * The captures `capturePayment` starts: every one is sent; the captured
   * payments come back in order, with the first failure if any.
   */
  function CaptureAll(g: Remote, ps: seq<RemotePayment>): (seq<RemotePayment>, Option<Cause>, Remote) {
    if |ps| == 0 then ([], None, g)
    else
      var (done, failed, g1) := CaptureAll(g, ps[..|ps| - 1]);
      var p := ps[|ps| - 1];
      var (r, g2) := CaptureStep(g1, p.id, p.amount, p.currency);
      if r.Ok? then (done + [r.value], failed, g2)
      else (done, if failed.Some? then failed else Some(r.cause), g2)
  }

  /**
   * `capturePayment(paymentSessionData)`: the rejection, if any, and the
   * session data afterwards, which is unchanged unless every capture of an
   * authorized payment succeeded.
   */
  function CaptureSpec(g: Remote, session: SessionData): (Option<Cause>, SessionData, Remote) {
    var (listed, g1) := FetchOrderPaymentsStep(g, session.id);
    if listed.Thrown? then (Some(listed.cause), session, g1)
    else if listed.value.None? then (None, session, g1)
    else
      var (done, failed, g2) := CaptureAll(g1, AuthorizedOnly(listed.value.value));
      if failed.Some? then (failed, session, g2)
      else (None, session.(payments := Some(ById(done))), g2)
  }

  // ----- Refund -----

  /** `Promise.all(ids.map(id => payments.fetch(id)))`, with every fetch sent. */
  function FetchAll(g: Remote, ids: seq<string>): (seq<RemotePayment>, Option<Cause>, Remote) {
    if |ids| == 0 then ([], None, g)
    else
      var (done, failed, g1) := FetchAll(g, ids[..|ids| - 1]);
      var (r, g2) := FetchPaymentStep(g1, ids[|ids| - 1]);
      if r.Ok? then (done + [r.value], failed, g2)
      else (done, if failed.Some? then failed else Some(r.cause), g2)
  }

  /** Refunding `amount` of a payment and recording the refund on the session. */
  function IssueRefund(g: Remote, session: SessionData, paymentId: string, amount: int): (Result<SessionData>, Remote) {
    var (refund, g1) := RefundStep(g, paymentId, amount);
    if refund.Thrown? then (Failure(BuildError(RefundFailed, refund.cause)), g1)
    else (Success(session.(refundSessions := Some(AppendRefund(session.refundSessions, refund.value)))), g1)
  }

  /** `refundPayment(paymentSessionData, refundAmount)` */
  function RefundSpec(g: Remote, session: SessionData, amount: int): (Outcome<Result<SessionData>>, Remote) {
    var (fetched, g1) := FetchOrderStep(g, session.id);
    if fetched.Thrown? then (Thrown(fetched.cause), g1)
    else
      var (ps, failed, g2) := FetchAll(g1, KeysOf(fetched.value.payments.GetOr([])));
      if failed.Some? then (Thrown(failed.value), g2)
      else
        var picked := FindRefundable(ps, amount);
        if picked.None? || picked.value.id == "" then (Ok(Success(session)), g2)
        else
          var (r, g3) := IssueRefund(g2, session, picked.value.id, amount);
          (Ok(r), g3)
  }
}
