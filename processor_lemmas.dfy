/**
 * What the adapter's operations guarantee, stated over `ProcessorSpec`.
 */
module ProcessorProperties {
  import opened RazorpayTypes
  import opened Gateway
  import opened Platform
  import opened ErrorHandling
  import opened StatusMapping
  import opened Requests
  import opened ProcessorSpec

  /** The log grew, and only by customer fetches, edits and creations. */
  predicate CustomerCallsOnly(before: seq<Call>, after: seq<Call>) {
    |before| <= |after| && after[..|before|] == before
    && forall i :: |before| <= i < |after| ==> after[i].FetchCustomer? || after[i].EditCustomer? || after[i].CreateCustomer?
  }

  lemma CustomerCallsOnlyTrans(a: seq<Call>, b: seq<Call>, c: seq<Call>)
    requires CustomerCallsOnly(a, b) && CustomerCallsOnly(b, c)
    ensures CustomerCallsOnly(a, c)
  {
    assert c[..|a|] == c[..|b|][..|a|];
  }

  // ----- Customer reconciliation -----

  /** An update of a customer's metadata sends one write, which keeps every other metadata key. */
  lemma MetadataUpdateWritesOnce(w: World, name: string, value: string)
    requires w.customer.Some?
    ensures var (r, w1) := UpdateMetadataSpec(w, name, value);
            var c := w.customer.value;
            w1.remote == w.remote
            && w1.store.writes == w.store.writes + [MetadataWrite(c.id, MetadataWithEntry(c.metadata, name, value))]
            && (r.Ok? <==> !w.store.down && c.id in w.store.records)
  {
  }

  lemma CustomerCallsOnlyAppend(before: seq<Call>, extra: seq<Call>)
    requires forall i :: 0 <= i < |extra| ==> extra[i].FetchCustomer? || extra[i].EditCustomer? || extra[i].CreateCustomer?
    ensures CustomerCallsOnly(before, before + extra)
  {
    assert (before + extra)[..|before|] == before;
    forall i | |before| <= i < |before + extra|
      ensures (before + extra)[i].FetchCustomer? || (before + extra)[i].EditCustomer? || (before + extra)[i].CreateCustomer?
    {
      assert (before + extra)[i] == extra[i - |before|];
    }
  }

  /** Editing sends at most a fetch and an edit of the linked customer, and never writes metadata. */
  lemma EditExistingCalls(w: World, notes: map<string, string>, cart: Cart)
    ensures var (r, w1, n1) := EditExistingSpec(w, notes, cart);
            CustomerCallsOnly(w.remote.log, w1.remote.log) && w1.store == w.store && w1.customer == w.customer
  {
    if w.customer.None? || ExistingRemoteId(w.customer.value).Fault? {
      CustomerCallsOnlyAppend(w.remote.log, []);
      assert w.remote.log + [] == w.remote.log;
    } else {
      var c := w.customer.value;
      var notes1 := SetNote(notes, "razorpay_id", ExistingRemoteId(c).v);
      var id := Lookup(notes1, "razorpay_id");
      var (fetched, g1) := FetchCustomerStep(w.remote, id);
      CustomerCallsOnlyAppend(w.remote.log, [FetchCustomer(id)]);
      if fetched.Ok? && EditPatch(cart, c, fetched.value).Val? {
        var patch := EditPatch(cart, c, fetched.value).v;
        CustomerCallsOnlyAppend(w.remote.log, [FetchCustomer(id), EditCustomer(fetched.value.id, patch)]);
        assert EditCustomerStep(g1, fetched.value.id, patch).1.log
               == w.remote.log + [FetchCustomer(id), EditCustomer(fetched.value.id, patch)];
      }
    }
  }

  /**
   * What editing answers: nothing when the fetch fails or the cart has no
   * billing address, the edited record when the edit succeeds, and the
   * record as fetched when it fails. The request's notes carry the linked id.
   */
  lemma EditExistingOutcomes(w: World, notes: map<string, string>, cart: Cart)
    requires HasExistingRemoteId(w.customer)
    ensures var id := ExistingRemoteId(w.customer.value).v;
            var (r, w1, n1) := EditExistingSpec(w, notes, cart);
            var (fetched, g1) := FetchCustomerStep(w.remote, id);
            r.Ok? && Lookup(n1, "razorpay_id") == id
            && (fetched.Thrown? ==> r.value.None?)
            && (fetched.Ok? && cart.billing_address.None? ==> r.value.None?)
            && (fetched.Ok? && cart.billing_address.Some? ==>
                  var patch := EditPatch(cart, w.customer.value, fetched.value).v;
                  var (edited, g2) := EditCustomerStep(g1, fetched.value.id, patch);
                  r.value == Some(if edited.Ok? then edited.value else fetched.value))
            && (r.value.Some? ==> r.value.value.id == id.value)
  {
    var c := w.customer.value;
    var id := ExistingRemoteId(c).v;
    assert Lookup(SetNote(notes, "razorpay_id", id), "razorpay_id") == id;
  }

  /**
   * Creation sends one create call when the body can be built; a created
   * customer's id is new to the gateway and goes into the notes, and it is
   * written into the customer's metadata, once, exactly when there is a
   * customer and the cart names one.
   */
  lemma CreateCustomerEffects(w: World, notes: map<string, string>, cart: Cart, email: string)
    ensures var (rc, w1, n1) := CreateCustomerSpec(w, notes, cart, email);
            var body := CreateBody(cart, w.customer, email);
            w1.remote.log == w.remote.log + (if body.Val? then [CreateCustomer(body.v)] else [])
            && (rc.Some? ==> rc.value.id !in CustomerIds(w.remote.customers)
                             && Lookup(n1, "razorpay_id") == Some(rc.value.id))
            && (rc.Some? && w.customer.Some? && Truthy(cart.customer_id) ==>
                  w1.store.writes == w.store.writes
                                     + [MetadataWrite(w.customer.value.id,
                                                      MetadataWithEntry(w.customer.value.metadata, "rp_customer_id", rc.value.id))])
            && (!(w.customer.Some? && Truthy(cart.customer_id)) ==> w1.store == w.store && w1.customer == w.customer)
  {
    var body := CreateBody(cart, w.customer, email);
    if body.Val? {
      var (created, g1) := CreateCustomerStep(w.remote, body.v);
      if created.Ok? {
        var rc := created.value;
        var notes1 := SetNote(notes, "razorpay_id", Some(rc.id));
        assert Lookup(notes1, "razorpay_id") == Some(rc.id);
        if w.customer.Some? && Truthy(cart.customer_id) {
          var c := w.customer.value;
          var w1 := w.(remote := g1);
          var (u, w2) := UpdateMetadataSpec(w1, "rp_customer_id", rc.id);
          assert w2.remote == g1;
          assert w2.store.writes == w.store.writes + [MetadataWrite(c.id, MetadataWithEntry(c.metadata, "rp_customer_id", rc.id))];
        }
      }
    }
  }

  /** Creation sends customer calls only. */
  lemma CreateCustomerCalls(w: World, notes: map<string, string>, cart: Cart, email: string)
    ensures CustomerCallsOnly(w.remote.log, CreateCustomerSpec(w, notes, cart, email).1.remote.log)
  {
    CreateCustomerEffects(w, notes, cart, email);
    var body := CreateBody(cart, w.customer, email);
    CustomerCallsOnlyAppend(w.remote.log, if body.Val? then [CreateCustomer(body.v)] else []);
  }

  /**
   * Without a cart there is no customer and nothing changes. Otherwise only
   * customer fetches, edits and creations are sent: the listing is never
   * consulted.
   */
  lemma ReconcileCalls(w: World, notes: map<string, string>, carts: map<string, Cart>, email: string, cartId: string)
    ensures var (rc, w1, n1) := ReconcileSpec(w, notes, carts, email, cartId);
            (cartId !in carts ==> rc.None? && w1 == w && n1 == notes)
            && CustomerCallsOnly(w.remote.log, w1.remote.log)
  {
    if cartId !in carts {
      CustomerCallsOnlyAppend(w.remote.log, []);
      assert w.remote.log + [] == w.remote.log;
    } else {
      var cart := carts[cartId];
      if HasExistingRemoteId(w.customer) {
        EditExistingCalls(w, notes, cart);
        var (edited, w1, n1) := EditExistingSpec(w, notes, cart);
        if !(edited.Ok? && edited.value.Some?) {
          CreateCustomerCalls(w1, n1, cart, email);
          CustomerCallsOnlyTrans(w.remote.log, w1.remote.log, CreateCustomerSpec(w1, n1, cart, email).1.remote.log);
        }
      } else {
        CreateCustomerCalls(w, notes, cart, email);
      }
    }
  }

  /** A customer that reconciliation finds has its id in the request's notes. */
  lemma ReconcileNotesCarryId(w: World, notes: map<string, string>, carts: map<string, Cart>, email: string, cartId: string)
    ensures var (rc, w1, n1) := ReconcileSpec(w, notes, carts, email, cartId);
            rc.Some? ==> Lookup(n1, "razorpay_id") == Some(rc.value.id)
  {
    if cartId in carts {
      var cart := carts[cartId];
      if HasExistingRemoteId(w.customer) {
        EditExistingOutcomes(w, notes, cart);
        var (edited, w1, n1) := EditExistingSpec(w, notes, cart);
        if !(edited.Ok? && edited.value.Some?) {
          CreateCustomerEffects(w1, n1, cart, email);
        }
      } else {
        CreateCustomerEffects(w, notes, cart, email);
      }
    }
  }

  /** A linked customer is edited, never created; an unlinked one is never fetched or edited. */
  lemma ReconcileChoosesOnePath(w: World, notes: map<string, string>, carts: map<string, Cart>, email: string, cartId: string)
    requires cartId in carts
    ensures var (rc, w1, n1) := ReconcileSpec(w, notes, carts, email, cartId);
            var (edited, we, ne) := EditExistingSpec(w, notes, carts[cartId]);
            (HasExistingRemoteId(w.customer) && edited.Ok? && edited.value.Some? ==>
               rc == edited.value && w1 == we && n1 == ne)
            && (HasExistingRemoteId(w.customer) && !(edited.Ok? && edited.value.Some?) ==>
                  (rc, w1, n1) == CreateCustomerSpec(we, ne, carts[cartId], email))
            && (!HasExistingRemoteId(w.customer) ==> (rc, w1, n1) == CreateCustomerSpec(w, notes, carts[cartId], email))
  {
  }

  /**
   * `fetchOrPollForCustomer`: without metadata or a nested `razorpay` record
   * nothing is sent and nothing is found. A truthy nested `rp_customer_id` is
   * fetched, once, and the answer is the gateway's customer of that id when
   * the fetch succeeds. Otherwise the first page is polled, and a poll that
   * throws gives nothing.
   */
  lemma FetchOrPollCases(w: World)
    ensures var (r, w1) := FetchOrPollSpec(w);
            ((w.customer.None? || w.customer.value.metadata.None? || w.customer.value.metadata.value.razorpay.None?)
               ==> r.None? && w1 == w)
            && (w.customer.Some? && w.customer.value.metadata.Some? && w.customer.value.metadata.value.razorpay.Some? ==>
                  var id := Lookup(w.customer.value.metadata.value.razorpay.value, "rp_customer_id");
                  (Truthy(id) ==>
                     var (fetched, g1) := FetchCustomerStep(w.remote, id);
                     w1.remote.log == w.remote.log + [FetchCustomer(id)]
                     && w1.store == w.store && w1.customer == w.customer
                     && (r.Some? <==> fetched.Ok?)
                     && (r.Some? ==> r.value == fetched.value && r.value in w.remote.customers && r.value.id == id.value))
                  && (!Truthy(id) ==>
                        var (polled, wp) := PollSpec(w);
                        w1 == wp && w1.remote.log == w.remote.log + [ListCustomers(PageSize, 0)]
                        && (r.Some? <==> polled.Ok?) && (r.Some? ==> r.value == polled.value)))
  {
    if w.customer.Some? && w.customer.value.metadata.Some? && w.customer.value.metadata.value.razorpay.Some? {
      var id := Lookup(w.customer.value.metadata.value.razorpay.value, "rp_customer_id");
      if !Truthy(id) {
        PollFirstPageOnly(w);
      }
    }
  }

  /**
   * Polling lists the first page only and sends nothing else to the
   * gateway; an empty page is an error; a picked customer's id is written
   * into the customer's metadata.
   */
  lemma PollFirstPageOnly(w: World)
    requires w.customer.Some?
    ensures var (r, w1) := PollSpec(w);
            var (listed, g1) := ListCustomersStep(w.remote, PageSize, 0);
            w1.remote.log == w.remote.log + [ListCustomers(PageSize, 0)]
            && (listed.Ok? && PickCustomer(listed.value, w.customer.value).None? ==> r == Thrown(NoCustomers) && w1.store == w.store)
            && (listed.Ok? && PickCustomer(listed.value, w.customer.value).Some? ==>
                  var picked := PickCustomer(listed.value, w.customer.value).value;
                  w1.store.writes == w.store.writes
                    + [MetadataWrite(w.customer.value.id, MetadataWithEntry(w.customer.value.metadata, "rp_customer_id", picked.id))]
                  && (r.Ok? ==> r.value == picked))
  {
  }

  // ----- Initiating a session -----

  /** Without a currency code the request cannot be built, and nothing is called. */
  lemma InitiateNeedsCurrency(cfg: Config, carts: map<string, Cart>, w: World, ctx: Context)
    requires ctx.currency_code.None?
    ensures InitiateSpec(cfg, carts, w, ctx) == (Thrown(TypeErrorCause), w)
  {
  }

  /**
   * An order is created only when reconciliation found a customer; the
   * order carries the request built from the context and the customer's id
   * in its notes. Without a customer the session data is handed back and no
   * order call is made. `initiatePayment` never throws once it has a currency.
   */
  lemma InitiateCreatesOrderOnlyForCustomer(cfg: Config, carts: map<string, Cart>, w: World, ctx: Context)
    requires ctx.currency_code.Some?
    ensures var req := BuildOrderRequest(cfg, ctx.amount, ctx.currency_code.value, ctx.resource_id, ctx.session.notes);
            var (rc, wr, notes) := ReconcileSpec(w, req.notes, carts, ctx.email, ctx.resource_id);
            var (r, w1) := InitiateSpec(cfg, carts, w, ctx);
            r.Ok?
            && (rc.None? ==> r.value == Success(SessionResponse(ctx.session, UpdateRequestsFor(wr.customer, notes)))
                             && CustomerCallsOnly(w.remote.log, w1.remote.log))
            && (rc.Some? ==> w1.remote.log == wr.remote.log + [CreateOrder(req.(notes := notes))]
                             && Lookup(notes, "razorpay_id") == Some(rc.value.id))
            && (rc.Some? && r.value.Success? ==>
                  var order := r.value.value.session_data;
                  order.id.Some? && order.id.value !in wr.remote.orders
                  && order.amount == Some(ctx.amount) && order.currency == Some(ToUpper(ctx.currency_code.value))
                  && order.notes == Some(notes))
            && (rc.Some? && r.value.Failure? ==> r.value.error.error == InitiateFailed)
            && (r.value.Success? ==> r.value.value.update_requests == UpdateRequestsFor(wr.customer, notes))
  {
    var req := BuildOrderRequest(cfg, ctx.amount, ctx.currency_code.value, ctx.resource_id, ctx.session.notes);
    ReconcileCalls(w, req.notes, carts, ctx.email, ctx.resource_id);
    ReconcileNotesCarryId(w, req.notes, carts, ctx.email, ctx.resource_id);
  }

  // ----- Updating a session -----

  /** Without a customer there is nothing to update. */
  lemma UpdateWithoutCustomer(cfg: Config, carts: map<string, Cart>, w: World, ctx: Context)
    requires ctx.resource_id in carts && w.customer.None?
    ensures UpdateSpec(cfg, carts, w, ctx) == (Ok(None), w, ctx.currency_code)
  {
  }

  /**
   * A customer linked only through the nested record, as this adapter links
   * customers, makes `updatePayment` throw before anything is sent.
   */
  lemma UpdateRejectsNestedLink(cfg: Config, carts: map<string, Cart>, w: World, ctx: Context)
    requires ctx.resource_id in carts && w.customer.Some?
    requires var m := w.customer.value.metadata;
             m.Some? && !Truthy(m.value.razorpay_id) && m.value.razorpay.Some? && "razopay" !in m.value.others
    ensures UpdateSpec(cfg, carts, w, ctx) == (Thrown(TypeErrorCause), w, ctx.currency_code)
  {
    NestedLinkFailsUpdateRead(w.customer.value);
  }

  /** For a customer new to the session, a missing phone number is an error, thrown before anything is sent. */
  lemma UpdateNewCustomerNeedsPhone(cfg: Config, carts: map<string, Cart>, w: World, ctx: Context)
    requires ctx.resource_id in carts && w.customer.Some?
    requires UpdatePaymentRemoteId(w.customer).Val? && UpdatePaymentRemoteId(w.customer).v != ctx.session.customer_id
    requires var c := w.customer.value;
             !Truthy(Coalesce(BillingPhone(carts[ctx.resource_id].billing_address), Coalesce(c.phone, BillingPhone(c.billing_address))))
    ensures UpdateSpec(cfg, carts, w, ctx) == (Thrown(PhoneMissing), w, ctx.currency_code)
  {
  }

  /** For a customer new to the session, the answer is a fresh initiation, its error wrapped. */
  lemma UpdateNewCustomerReinitiates(cfg: Config, carts: map<string, Cart>, w: World, ctx: Context)
    requires ctx.resource_id in carts && w.customer.Some?
    requires UpdatePaymentRemoteId(w.customer).Val? && UpdatePaymentRemoteId(w.customer).v != ctx.session.customer_id
    requires var c := w.customer.value;
             Truthy(Coalesce(BillingPhone(carts[ctx.resource_id].billing_address), Coalesce(c.phone, BillingPhone(c.billing_address))))
    requires ctx.currency_code.Some?
    ensures var (r, w1, cur) := UpdateSpec(cfg, carts, w, ctx);
            var (init, wi) := InitiateSpec(cfg, carts, w, ctx);
            w1 == wi && cur == ctx.currency_code && r.Ok? && r.value.Some?
            && (init.value.Success? ==> r.value.value == init.value)
            && (init.value.Failure? ==>
                  r.value.value.Failure? && r.value.value.error.error == UpdateInitiateFailed
                  && r.value.value.error.code == init.value.error.code
                  && r.value.value.error.detail == Has(Some(init.value.error.error + EOL + DetailText(init.value.error.detail))))
  {
    InitiateCreatesOrderOnlyForCustomer(cfg, carts, w, ctx);
  }

  /** Same customer, no amount and no currency: nothing is sent and nothing is answered. */
  lemma UpdateNothingRequested(cfg: Config, carts: map<string, Cart>, w: World, ctx: Context)
    requires ctx.resource_id in carts && w.customer.Some?
    requires UpdatePaymentRemoteId(w.customer) == Val(ctx.session.customer_id)
    requires ctx.amount == 0 && !Truthy(ctx.currency_code)
    ensures UpdateSpec(cfg, carts, w, ctx) == (Ok(None), w, ctx.currency_code)
  {
  }

  /**
   * Same customer with an amount or currency: the current order is fetched,
   * the context's currency becomes the requested one upper-cased (else the
   * order's), and a new session is initiated in it and answered without
   * update requests. A failed fetch or a throwing initiation becomes an
   * `updatePayment` error; an initiation that answers an error gives an
   * empty session instead.
   */
  lemma UpdateReinitiatesInCurrency(cfg: Config, carts: map<string, Cart>, w: World, ctx: Context)
    requires ctx.resource_id in carts && w.customer.Some?
    requires UpdatePaymentRemoteId(w.customer) == Val(ctx.session.customer_id)
    requires ctx.amount != 0 || Truthy(ctx.currency_code)
    ensures var (r, w1, cur) := UpdateSpec(cfg, carts, w, ctx);
            var (fetched, g1) := FetchOrderStep(w.remote, ctx.session.id);
            r.Ok? && r.value.Some?
            && (fetched.Thrown? ==> r.value.value == Failure(BuildError(UpdateFailed, fetched.cause)) && w1 == w.(remote := g1))
            && (fetched.Ok? ==>
                  var currency := UpperOr(ctx.currency_code, fetched.value.currency);
                  var (init, wi) := InitiateSpec(cfg, carts, w.(remote := g1), ctx.(currency_code := currency));
                  cur == currency && w1 == wi
                  && (init.Thrown? ==> r.value.value == Failure(BuildError(UpdateFailed, init.cause)))
                  && (init.Ok? && init.value.Success? ==>
                        r.value.value == Success(SessionResponse(init.value.value.session_data, None)))
                  && (init.Ok? && init.value.Failure? ==> r.value.value == Success(SessionResponse(EmptySession, None))))
  {
  }

  // ----- Status, authorization, retrieval -----

  /** The status is that of the order the session names; a failed fetch is thrown, with no other order tried. */
  lemma PaymentStatusOfSessionOrder(g: Remote, session: SessionData)
    ensures var (r, g1) := PaymentStatusSpec(g, session);
            g1.log == g.log + [FetchOrder(session.id)]
            && (session.id.Some? && session.id.value in g.orders && Serves(g, OrdersFetch)
                <==> r.Ok?)
            && (r.Ok? ==> r.value == StatusOfOrder(g.orders[session.id.value]) && r.value != Error)
            && (r.Thrown? ==> r.cause == g.failure)
  {
    if session.id.Some? && session.id.value in g.orders && Serves(g, OrdersFetch) {
      StatusOfOrderTable(g.orders[session.id.value]);
    }
  }

  /** Authorization answers the session data it was given, with the session's status. */
  lemma AuthorizeAnswersInput(g: Remote, session: SessionData)
    ensures var (r, g1) := AuthorizeSpec(g, session);
            var (status, g2) := PaymentStatusSpec(g, session);
            g1 == g2 && (r.Ok? <==> status.Ok?)
            && (r.Ok? ==> r.value.data == session && r.value.status == status.value)
  {
  }

  /** An order created by initiation is retrieved back unchanged. */
  lemma RetrieveAfterCreate(g: Remote, req: OrderRequest)
    requires Serves(g, OrdersCreate) && Serves(g, OrdersFetch)
    ensures var (created, g1) := CreateOrderStep(g, req);
            created.Ok? && RetrieveSpec(g1, created.value).0 == Success(created.value)
  {
    CreatedOrderFetchesBack(g, req);
  }

  /** A session without an id is not looked up under any other key: retrieval fails. */
  lemma RetrieveWithoutIdFails(g: Remote, session: SessionData)
    requires session.id.None?
    ensures RetrieveSpec(g, session).0 == Failure(BuildError(RetrieveFailed, g.failure))
  {
  }

  // ----- Updating payment data -----

  /** An amount or currency is refused before any gateway call, with the refusal's message as detail. */
  lemma UpdateDataRefusesAmount(g: Remote, sessionId: string, data: DataPatch)
    requires TruthyAmount(data.amount) || Truthy(data.currency)
    ensures UpdateDataSpec(g, sessionId, data)
            == (Failure(ProcessorError(UpdateDataFailed, None, Has(Some("Cannot update amount, use updatePayment instead")))), g)
  {
    PlainFailureReportsMessage(UpdateDataFailed, "Cannot update amount, use updatePayment instead", None);
  }

  /** New notes are merged over the payment's notes and written to the order of the same id. */
  lemma UpdateDataMergesNotes(g: Remote, sessionId: string, data: DataPatch)
    requires !TruthyAmount(data.amount) && !Truthy(data.currency) && data.notes.Some?
    requires Serves(g, PaymentsFetch) && sessionId in g.payments
    ensures var payment := g.payments[sessionId];
            var merged := payment.notes.GetOr(map[]) + data.notes.value;
            var (r, g1) := UpdateDataSpec(g, sessionId, data);
            g1.log == g.log + [FetchPayment(sessionId), EditOrder(sessionId, merged)]
            && (r.Success? ==> r.value == OrderRecord(g.orders[sessionId].(notes := Some(merged))))
            && (forall k :: k in data.notes.value ==> merged[k] == data.notes.value[k])
            && (forall k :: k in payment.notes.GetOr(map[]) && k !in data.notes.value ==> merged[k] == payment.notes.GetOr(map[])[k])
  {
  }

  // ----- Capture -----

  /** The gateway stores every payment under its own id. */
  predicate PaymentsKeyed(g: Remote) {
    forall k :: k in g.payments ==> g.payments[k].id == k
  }

  function CaptureCalls(ps: seq<RemotePayment>): seq<Call> {
    seq(|ps|, i requires 0 <= i < |ps| => CapturePayment(ps[i].id, ps[i].amount, ps[i].currency))
  }

  /**
   * Every capture is sent, each with its payment's own amount and currency,
   * whatever fails; without a failure every payment comes back captured, in
   * order.
   */
  lemma {:induction false} CaptureAllSendsEvery(g: Remote, ps: seq<RemotePayment>)
    requires PaymentsKeyed(g)
    ensures var (done, failed, g1) := CaptureAll(g, ps);
            g1.log == g.log + CaptureCalls(ps)
            && (failed.None? ==>
                  |done| == |ps| && forall i :: 0 <= i < |ps| ==> done[i].id == ps[i].id && done[i].status == "captured")
            && g1.orders == g.orders && PaymentsKeyed(g1)
  {
    if |ps| > 0 {
      var init := ps[..|ps| - 1];
      CaptureAllSendsEvery(g, init);
      var (done, failed, g1) := CaptureAll(g, init);
      var p := ps[|ps| - 1];
      assert CaptureCalls(ps) == CaptureCalls(init) + [CapturePayment(p.id, p.amount, p.currency)];
      var (r, g2) := CaptureStep(g1, p.id, p.amount, p.currency);
      assert r.Ok? ==> r.value.id == p.id;
    }
  }

  /**
   * The session keeps its data when the payments are absent or a capture
   * fails; otherwise its `payments` has one entry per authorized payment,
   * keyed by id, and none when no payment is authorized.
   */
  lemma CaptureSessionPayments(g: Remote, session: SessionData)
    requires PaymentsKeyed(g)
    ensures var (failure, data, g1) := CaptureSpec(g, session);
            var (listed, gl) := FetchOrderPaymentsStep(g, session.id);
            (failure.Some? || (listed.Ok? && listed.value.None?) ==> data == session)
            && (listed.Ok? && listed.value.Some? ==>
                  g1.log == g.log + [FetchOrderPayments(session.id)] + CaptureCalls(AuthorizedOnly(listed.value.value)))
            && (failure.None? && listed.Ok? && listed.value.Some? ==>
                  data == session.(payments := data.payments) && data.payments.Some?
                  && DistinctKeys(data.payments.value)
                  && (forall p :: p in listed.value.value && p.status == "authorized" ==> p.id in KeysOf(data.payments.value))
                  && (forall e :: e in data.payments.value ==>
                        e.1.id == e.0 && e.1.status == "captured"
                        && exists p :: p in listed.value.value && p.status == "authorized" && p.id == e.0)
                  && (AuthorizedOnly(listed.value.value) == [] ==> data.payments == Some([])))
  {
    var (listed, gl) := FetchOrderPaymentsStep(g, session.id);
    if listed.Ok? && listed.value.Some? {
      var todo := AuthorizedOnly(listed.value.value);
      CaptureAllSendsEvery(gl, todo);
      var (done, failed, g2) := CaptureAll(gl, todo);
      if failed.None? {
        ByIdEntries(done);
        forall p | p in listed.value.value && p.status == "authorized" ensures p.id in KeysOf(ById(done)) {
          assert p in todo;
          var i :| 0 <= i < |todo| && todo[i] == p;
          assert done[i].id == p.id;
          assert done[i] in done;
        }
        forall e | e in ById(done)
          ensures e.1.id == e.0 && e.1.status == "captured"
                  && exists p :: p in listed.value.value && p.status == "authorized" && p.id == e.0
        {
          var j :| 0 <= j < |ById(done)| && ById(done)[j] == e;
          LastWithIdIn(done, e.0);
          var q := LastWithId(done, e.0).value;
          var i :| 0 <= i < |done| && done[i] == q;
          assert todo[i] in todo;
        }
      }
    }
  }

  // ----- Refund -----

  function FetchCalls(ids: seq<string>): seq<Call> {
    seq(|ids|, i requires 0 <= i < |ids| => FetchPayment(ids[i]))
  }

  /** Every payment of the order is fetched, and nothing else is sent. */
  lemma {:induction false} FetchAllSendsEvery(g: Remote, ids: seq<string>)
    ensures var (ps, failed, g1) := FetchAll(g, ids);
            g1 == g.(log := g.log + FetchCalls(ids))
  {
    if |ids| > 0 {
      var init := ids[..|ids| - 1];
      FetchAllSendsEvery(g, init);
      assert FetchCalls(ids) == FetchCalls(init) + [FetchPayment(ids[|ids| - 1])];
    }
  }

  /**
   * As written, `refundPayment` never refunds: once the order and its
   * payments are fetched it answers the session unchanged, and no refund is
   * sent.
   */
  lemma RefundNeverRefunds(g: Remote, session: SessionData, amount: int)
    ensures var (r, g1) := RefundSpec(g, session, amount);
            var (fetched, gf) := FetchOrderStep(g, session.id);
            (r.Ok? ==> r.value == Success(session))
            && (fetched.Ok? ==> g1 == gf.(log := gf.log + FetchCalls(KeysOf(fetched.value.payments.GetOr([])))))
            && (fetched.Thrown? ==> g1 == gf)
  {
    var (fetched, gf) := FetchOrderStep(g, session.id);
    if fetched.Ok? {
      var ids := KeysOf(fetched.value.payments.GetOr([]));
      FetchAllSendsEvery(gf, ids);
      var (ps, failed, g2) := FetchAll(gf, ids);
      NoPaymentIsRefundable(ps, amount);
    }
  }

  /** A refund that is issued asks for the refund amount and is appended to the session's refunds. */
  lemma IssuedRefundIsRecorded(g: Remote, session: SessionData, paymentId: string, amount: int)
    ensures var (r, g1) := IssueRefund(g, session, paymentId, amount);
            g1.log == g.log + [RefundPayment(paymentId, amount)]
            && (r.Success? ==> r.value == session.(refundSessions := Some(session.refundSessions.GetOr([])
                                                                               + [RemoteRefund(paymentId, amount)])))
            && (r.Failure? ==> r.error.error == RefundFailed)
  {
  }
}
