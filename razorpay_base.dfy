/**
 * The Razorpay payment processor: each operation as the step-by-step
 * procedure it is, updating the objects it is handed in place and calling
 * the gateway and the platform services, proved to do what `ProcessorSpec`
 * says.
 */
module RazorpayAdapter {
  import opened RazorpayTypes
  import opened Gateway
  import opened Platform
  import opened ErrorHandling
  import opened StatusMapping
  import opened Requests
  import opened ProcessorSpec

  class RazorpayBase {
    const config: Config
    const client: RazorpayClient
    const cartService: CartService
    const customerService: CustomerService

    constructor (config: Config, client: RazorpayClient, cartService: CartService, customerService: CustomerService)
      ensures this.config == config && this.client == client
      ensures this.cartService == cartService && this.customerService == customerService
    {
      this.config := config;
      this.client := client;
      this.cartService := cartService;
      this.customerService := customerService;
    }

    /** The gateway, the customer store and the given customer object, as the specification sees them. */
    function Now(customer: CustomerObject?): World
      reads client, customerService, customer
    {
      World(client.state, customerService.state, DataOf(customer))
    }

    function ContextOf(ctx: PaymentContext): Context
      reads ctx, ctx.paymentSessionData
    {
      Context(ctx.email, ctx.currency_code, ctx.amount, ctx.resource_id, ctx.paymentSessionData.data)
    }

    // ----- Customer reconciliation -----

    method UpdateRazorpayMetadatainCustomer(customer: CustomerObject?, name: string, value: string)
      returns (r: Outcome<CustomerData>)
      modifies customerService, customer
      ensures (r, Now(customer)) == UpdateMetadataSpec(old(Now(customer)), name, value)
    {
      if customer == null {
        return Thrown(TypeErrorCause);
      }
      var metadata := customer.data.metadata;
      var razorpay: map<string, string>;
      if metadata.Some? && metadata.value.razorpay.Some? {
        razorpay := metadata.value.razorpay.value[name := value];
        // the nested record is the customer's own, so the customer changes too
        customer.data := customer.data.(metadata := Some(metadata.value.(razorpay := Some(razorpay))));
      } else {
        razorpay := map[name := value];
      }
      var sent := if metadata.Some? then metadata.value.(razorpay := Some(razorpay))
                  else Metadata(None, Some(razorpay), None, map[]);
      r := customerService.Update(customer.data.id, sent);
    }

    method EditExistingRpCustomer(customer: CustomerObject?, cart: Cart, request: IntentRequest)
      returns (r: Outcome<Option<RemoteCustomer>>)
      modifies client, request
      ensures (r, Now(customer), request.body.notes) == EditExistingSpec(old(Now(customer)), old(request.body.notes), cart)
      ensures request.body == old(request.body).(notes := request.body.notes)
    {
      if customer == null {
        return Thrown(TypeErrorCause);
      }
      var razorpay_id := ExistingRemoteId(customer.data);
      if razorpay_id.Fault? {
        return Thrown(TypeErrorCause);
      }
      request.body := request.body.(notes := SetNote(request.body.notes, "razorpay_id", razorpay_id.v));
      var fetched := client.FetchCustomer(Lookup(request.body.notes, "razorpay_id"));
      if fetched.Thrown? {
        return Ok(None);
      }
      var patch := EditPatch(cart, customer.data, fetched.value);
      if patch.Fault? {
        return Ok(None);
      }
      var edited := client.EditCustomer(fetched.value.id, patch.v);
      if edited.Ok? {
        return Ok(Some(edited.value));
      }
      return Ok(Some(fetched.value));
    }

    method CreateRazorpayCustomer(customer: CustomerObject?, cart: Cart, email: string, request: IntentRequest)
      returns (r: Option<RemoteCustomer>)
      modifies client, customerService, customer, request
      ensures (r, Now(customer), request.body.notes) == CreateCustomerSpec(old(Now(customer)), old(request.body.notes), cart, email)
      ensures request.body == old(request.body).(notes := request.body.notes)
    {
      var body := CreateBody(cart, DataOf(customer), email);
      if body.Fault? {
        return None;
      }
      var created := client.CreateCustomer(body.v);
      if created.Thrown? {
        return None;
      }
      request.body := request.body.(notes := SetNote(request.body.notes, "razorpay_id", Some(created.value.id)));
      if customer != null && Truthy(cart.customer_id) {
        var updated := UpdateRazorpayMetadatainCustomer(customer, "rp_customer_id", created.value.id);
        if updated.Thrown? {
          return None;
        }
      }
      return Some(created.value);
    }

    /**
     * The source's loop re-runs only when a pass neither breaks nor throws,
     * and every pass does one or the other, so its one pass is written out.
     */
    method PollAndRetrieveCustomer(customer: CustomerObject) returns (r: Outcome<RemoteCustomer>)
      modifies client, customerService, customer
      ensures (r, Now(customer)) == PollSpec(old(Now(customer)))
    {
      var skip := 0;
      var listed := client.ListCustomers(PageSize, skip);
      if listed.Thrown? {
        return Thrown(listed.cause);
      }
      var picked := PickCustomer(listed.value, customer.data);
      if picked.None? {
        return Thrown(NoCustomers);
      }
      var updated := UpdateRazorpayMetadatainCustomer(customer, "rp_customer_id", picked.value.id);
      if updated.Thrown? {
        return Thrown(updated.cause);
      }
      return Ok(picked.value);
    }

    method FetchOrPollForCustomer(customer: CustomerObject?) returns (r: Option<RemoteCustomer>)
      modifies client, customerService, customer
      ensures (r, Now(customer)) == FetchOrPollSpec(old(Now(customer)))
    {
      if customer == null || customer.data.metadata.None? || customer.data.metadata.value.razorpay.None? {
        return None;
      }
      var id := Lookup(customer.data.metadata.value.razorpay.value, "rp_customer_id");
      if Truthy(id) {
        var fetched := client.FetchCustomer(id);
        return if fetched.Ok? then Some(fetched.value) else None;
      }
      var polled := PollAndRetrieveCustomer(customer);
      return if polled.Ok? then Some(polled.value) else None;
    }

    /**
     * Creation swallows its own failures, so the source's fallback to
     * `fetchOrPollForCustomer` when creation throws is never reached.
     */
    method CreateOrUpdateCustomer(request: IntentRequest, customer: CustomerObject?, email: string, cartId: string)
      returns (r: Option<RemoteCustomer>)
      modifies client, customerService, customer, request
      ensures (r, Now(customer), request.body.notes)
              == ReconcileSpec(old(Now(customer)), old(request.body.notes), cartService.carts, email, cartId)
      ensures request.body == old(request.body).(notes := request.body.notes)
    {
      var cart := cartService.Retrieve(cartId);
      if cart.Thrown? {
        return None;
      }
      r := None;
      if customer != null {
        var linked := ExistingRemoteId(customer.data);
        if linked.Val? && Truthy(linked.v) {
          var edited := EditExistingRpCustomer(customer, cart.value, request);
          if edited.Ok? {
            r := edited.value;
          }
        }
      }
      if r.None? {
        r := CreateRazorpayCustomer(customer, cart.value, email, request);
      }
    }

    // ----- Sessions -----

    method InitiatePayment(ctx: PaymentContext) returns (r: Outcome<Result<SessionResponse>>)
      modifies client, customerService, ctx.customer
      ensures (r, Now(ctx.customer)) == InitiateSpec(config, cartService.carts, old(Now(ctx.customer)), old(ContextOf(ctx)))
    {
      if ctx.currency_code.None? {
        return Thrown(TypeErrorCause);
      }
      var request := new IntentRequest(BuildOrderRequest(config, ctx.amount, ctx.currency_code.value, ctx.resource_id,
                                                         ctx.paymentSessionData.data.notes));
      var rc := CreateOrUpdateCustomer(request, ctx.customer, ctx.email, ctx.resource_id);
      var session_data: Option<SessionData> := None;
      if rc.Some? {
        var created := client.CreateOrder(request.body);
        if created.Thrown? {
          return Ok(Failure(BuildError(InitiateFailed, created.cause)));
        }
        session_data := Some(created.value);
      }
      var updates := UpdateRequestsFor(DataOf(ctx.customer), request.body.notes);
      return Ok(Success(SessionResponse(session_data.GetOr(ctx.paymentSessionData.data), updates)));
    }

    method UpdatePayment(ctx: PaymentContext) returns (r: Outcome<Option<Result<SessionResponse>>>)
      modifies client, customerService, ctx.customer, ctx`currency_code
      ensures (r, Now(ctx.customer), ctx.currency_code)
              == UpdateSpec(config, cartService.carts, old(Now(ctx.customer)), old(ContextOf(ctx)))
    {
      var cart := cartService.Retrieve(ctx.resource_id);
      if cart.Thrown? {
        return Thrown(cart.cause);
      }
      var razorpayId := UpdatePaymentRemoteId(DataOf(ctx.customer));
      if razorpayId.Fault? {
        return Thrown(TypeErrorCause);
      }
      if ctx.customer == null {
        return Ok(None);
      }
      if razorpayId.v != ctx.paymentSessionData.data.customer_id {
        var c := ctx.customer.data;
        var phone := Coalesce(BillingPhone(cart.value.billing_address), Coalesce(c.phone, BillingPhone(c.billing_address)));
        if !Truthy(phone) {
          return Thrown(PhoneMissing);
        }
        var result := InitiatePayment(ctx);
        if result.Thrown? {
          return Thrown(result.cause);
        }
        if result.value.Failure? {
          return Ok(Some(Failure(BuildError(UpdateInitiateFailed, AsCause(result.value.error)))));
        }
        return Ok(Some(result.value));
      }
      if ctx.amount == 0 && !Truthy(ctx.currency_code) {
        return Ok(None);
      }
      var fetched := client.FetchOrder(ctx.paymentSessionData.data.id);
      if fetched.Thrown? {
        return Ok(Some(Failure(BuildError(UpdateFailed, fetched.cause))));
      }
      var sessionOrderData := fetched.value;
      sessionOrderData := sessionOrderData.(id := None, created_at := None);
      ctx.currency_code := UpperOr(ctx.currency_code, sessionOrderData.currency);
      var again := InitiatePayment(ctx);
      if again.Thrown? {
        return Ok(Some(Failure(BuildError(UpdateFailed, again.cause))));
      }
      var data := if again.value.Success? then again.value.value.session_data else EmptySession;
      return Ok(Some(Success(SessionResponse(data, None))));
    }

    method GetPaymentStatus(session: SessionData) returns (r: Outcome<SessionStatus>)
      modifies client
      ensures (r, client.state) == PaymentStatusSpec(old(client.state), session)
    {
      var fetched := client.FetchOrder(session.id);
      if fetched.Thrown? {
        return Thrown(fetched.cause);
      }
      return Ok(StatusOfOrder(fetched.value));
    }

    method AuthorizePayment(session: SessionData) returns (r: Outcome<Authorization>)
      modifies client
      ensures (r, client.state) == AuthorizeSpec(old(client.state), session)
    {
      var status := GetPaymentStatus(session);
      if status.Thrown? {
        return Thrown(status.cause);
      }
      return Ok(Authorization(status.value, session));
    }

    method RetrievePayment(session: SessionData) returns (r: Result<SessionData>)
      modifies client
      ensures (r, client.state) == RetrieveSpec(old(client.state), session)
    {
      var fetched := client.FetchOrder(session.id);
      if fetched.Thrown? {
        return Failure(BuildError(RetrieveFailed, fetched.cause));
      }
      return Success(fetched.value);
    }

    method UpdatePaymentData(sessionId: string, data: DataPatch) returns (r: Result<Record>)
      modifies client
      ensures (r, client.state) == UpdateDataSpec(old(client.state), sessionId, data)
    {
      if TruthyAmount(data.amount) || Truthy(data.currency) {
        return Failure(BuildError(UpdateDataFailed, AmountUpdateRefused));
      }
      var fetched := client.FetchPayment(sessionId);
      if fetched.Thrown? {
        return Failure(BuildError(UpdateDataFailed, fetched.cause));
      }
      if data.notes.None? {
        return Success(PaymentRecord(fetched.value));
      }
      var edited := client.EditOrder(sessionId, fetched.value.notes.GetOr(map[]) + data.notes.value);
      if edited.Thrown? {
        return Failure(BuildError(UpdateDataFailed, edited.cause));
      }
      return Success(OrderRecord(edited.value));
    }

    // ----- Capture and refund -----

    /** Answers the session object it was given, with `payments` set when every capture succeeded. */
    method CapturePayment(session: SessionObject) returns (r: Outcome<SessionObject>)
      modifies client, session
      ensures var (failure, data, g) := CaptureSpec(old(client.state), old(session.data));
              client.state == g && session.data == data
              && r == (if failure.Some? then Thrown(failure.value) else Ok(session))
    {
      var listed := client.FetchOrderPayments(session.data.id);
      if listed.Thrown? {
        return Thrown(listed.cause);
      }
      if listed.value.Some? {
        var possibleCaptures := AuthorizedOnly(listed.value.value);
        ghost var start := client.state;
        var captured: seq<RemotePayment> := [];
        var failed: Option<Cause> := None;
        var i := 0;
        while i < |possibleCaptures|
          invariant 0 <= i <= |possibleCaptures|
          invariant (captured, failed, client.state) == CaptureAll(start, possibleCaptures[..i])
          invariant session.data == old(session.data)
        {
          var p := possibleCaptures[i];
          var res := client.Capture(p.id, p.amount, p.currency);
          if res.Ok? {
            captured := captured + [res.value];
          } else if failed.None? {
            failed := Some(res.cause);
          }
          assert possibleCaptures[..i + 1][..i] == possibleCaptures[..i];
          i := i + 1;
        }
        assert possibleCaptures[..|possibleCaptures|] == possibleCaptures;
        if failed.Some? {
          return Thrown(failed.value);
        }
        var acc: seq<(string, RemotePayment)> := [];
        var j := 0;
        while j < |captured|
          invariant 0 <= j <= |captured|
          invariant acc == ById(captured[..j])
        {
          acc := Put(acc, captured[j].id, captured[j]);
          assert captured[..j + 1][..j] == captured[..j];
          j := j + 1;
        }
        assert captured[..|captured|] == captured;
        session.data := session.data.(payments := Some(acc));
      }
      return Ok(session);
    }

    /** Answers the session object it was given, or the error of a failed refund. */
    method RefundPayment(session: SessionObject, refundAmount: int) returns (r: Outcome<Result<SessionObject>>)
      modifies client, session
      ensures var (expected, g) := RefundSpec(old(client.state), old(session.data), refundAmount);
              client.state == g
              && (expected.Thrown? ==> r == Thrown(expected.cause) && session.data == old(session.data))
              && (expected.Ok? && expected.value.Failure? ==>
                    r == Ok(Failure(expected.value.error)) && session.data == old(session.data))
              && (expected.Ok? && expected.value.Success? ==>
                    r == Ok(Success(session)) && session.data == expected.value.value)
    {
      var fetched := client.FetchOrder(session.data.id);
      if fetched.Thrown? {
        return Thrown(fetched.cause);
      }
      var paymentIds := KeysOf(fetched.value.payments.GetOr([]));
      ghost var start := client.state;
      var payments: seq<RemotePayment> := [];
      var failed: Option<Cause> := None;
      var i := 0;
      while i < |paymentIds|
        invariant 0 <= i <= |paymentIds|
        invariant (payments, failed, client.state) == FetchAll(start, paymentIds[..i])
        invariant session.data == old(session.data)
      {
        var res := client.FetchPayment(paymentIds[i]);
        if res.Ok? {
          payments := payments + [res.value];
        } else if failed.None? {
          failed := Some(res.cause);
        }
        assert paymentIds[..i + 1][..i] == paymentIds[..i];
        i := i + 1;
      }
      assert paymentIds[..|paymentIds|] == paymentIds;
      if failed.Some? {
        return Thrown(failed.value);
      }
      var picked := FindRefundable(payments, refundAmount);
      if picked.Some? && picked.value.id != "" {
        var refund := client.Refund(picked.value.id, refundAmount);
        if refund.Thrown? {
          return Ok(Failure(BuildError(RefundFailed, refund.cause)));
        }
        var refundsIssued := session.data.refundSessions;
        if refundsIssued.Some? && |refundsIssued.value| > 0 {
          session.data := session.data.(refundSessions := Some(refundsIssued.value + [refund.value]));
        } else {
          session.data := session.data.(refundSessions := Some([refund.value]));
        }
      }
      return Ok(Success(session));
    }
  }
}
