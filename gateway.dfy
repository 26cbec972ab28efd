/**
 * The Razorpay account the adapter talks to, as abstract state: its orders,
 * the payments of each order, its payments and customers, the endpoints that
 * currently reject every call, and the log of calls made. Each endpoint is a
 * step function on that state; `RazorpayClient` holds the state and applies
 * them.
 */
module Gateway {
  import opened RazorpayTypes

  datatype Endpoint =
    | OrdersCreate | OrdersFetch | OrdersEdit | OrdersFetchPayments
    | PaymentsFetch | PaymentsCapture | PaymentsRefund
    | CustomersCreate | CustomersFetch | CustomersEdit | CustomersAll

  /** One request sent to the gateway, with the arguments it carried. */
  datatype Call =
    | CreateOrder(request: OrderRequest)
    | FetchOrder(orderId: Option<string>)
    | EditOrder(editedId: string, newNotes: map<string, string>)
    | FetchOrderPayments(ofOrder: Option<string>)
    | FetchPayment(paymentId: string)
    | CapturePayment(capturedId: string, amount: int, currency: string)
    | RefundPayment(refundedId: string, refundAmount: int)
    | CreateCustomer(body: CustomerCreateBody)
    | FetchCustomer(customerId: Option<string>)
    | EditCustomer(editedCustomer: string, patch: CustomerPatch)
    | ListCustomers(count: int, skip: int)

  datatype Remote = Remote(
    orders: map<string, SessionData>,
    orderPayments: map<string, Option<seq<RemotePayment>>>,
    payments: map<string, RemotePayment>,
    customers: seq<RemoteCustomer>,
    down: set<Endpoint>,
    failure: Cause,
    log: seq<Call>)

  predicate Serves(g: Remote, e: Endpoint) {
    e !in g.down
  }

  function Logged(g: Remote, c: Call): Remote {
    g.(log := g.log + [c])
  }

  // ----- Fresh identifiers -----

  ghost function LengthBound(keys: set<string>): (b: nat)
    ensures forall k :: k in keys ==> |k| <= b
  {
    if keys == {} then 0
    else
      var k :| k in keys;
      var rest := LengthBound(keys - {k});
      if |k| > rest then |k| else rest
  }

  function LongerThanAll(keys: set<string>, len: nat): (r: nat)
    ensures r >= len
    ensures forall k :: k in keys ==> |k| < r
    decreases LengthBound(keys) + 1 - len
  {
    if forall k | k in keys :: |k| < len then len else LongerThanAll(keys, len + 1)
  }

  /** An identifier the gateway has not handed out yet. */
  function FreshKey(keys: set<string>, prefix: string): (k: string)
    ensures k !in keys
  {
    prefix + seq(LongerThanAll(keys, 0), _ => 'x')
  }

  function CustomerIds(cs: seq<RemoteCustomer>): set<string> {
    set c | c in cs :: c.id
  }

  /** The first customer with the given id. */
  function FindCustomer(cs: seq<RemoteCustomer>, id: string): (r: Option<RemoteCustomer>)
    ensures r.Some? ==> r.value in cs && r.value.id == id
    ensures r.None? ==> id !in CustomerIds(cs)
  {
    if |cs| == 0 then None
    else if cs[0].id == id then Some(cs[0])
    else FindCustomer(cs[1..], id)
  }

  function ReplaceCustomer(cs: seq<RemoteCustomer>, updated: RemoteCustomer): seq<RemoteCustomer> {
    seq(|cs|, i requires 0 <= i < |cs| => if cs[i].id == updated.id then updated else cs[i])
  }

  /** The order a create request makes. */
  function NewOrder(id: string, req: OrderRequest): SessionData {
    SessionData(Some(id), Some(req.amount), Some(req.currency), Some("created"), Some(req.notes),
                None, None, None, None)
  }

  // ----- Endpoints -----

  function CreateOrderStep(g: Remote, req: OrderRequest): (res: (Outcome<SessionData>, Remote))
    ensures res.1.log == g.log + [CreateOrder(req)]
    ensures res.0.Ok? <==> Serves(g, OrdersCreate)
    ensures res.0.Ok? ==> res.0.value.id.Some? && res.0.value.id.value !in g.orders
  {
    var g1 := Logged(g, CreateOrder(req));
    if !Serves(g, OrdersCreate) then (Thrown(g.failure), g1)
    else
      var id := FreshKey(g.orders.Keys, "order_");
      var order := NewOrder(id, req);
      (Ok(order), g1.(orders := g.orders[id := order], orderPayments := g.orderPayments[id := Some([])]))
  }

  function FetchOrderStep(g: Remote, id: Option<string>): (Outcome<SessionData>, Remote) {
    var g1 := Logged(g, FetchOrder(id));
    if Serves(g, OrdersFetch) && id.Some? && id.value in g.orders then (Ok(g.orders[id.value]), g1)
    else (Thrown(g.failure), g1)
  }

  function EditOrderStep(g: Remote, id: string, notes: map<string, string>): (Outcome<SessionData>, Remote) {
    var g1 := Logged(g, EditOrder(id, notes));
    if Serves(g, OrdersEdit) && id in g.orders then
      var edited := g.orders[id].(notes := Some(notes));
      (Ok(edited), g1.(orders := g.orders[id := edited]))
    else (Thrown(g.failure), g1)
  }

  /** `orders.fetchPayments(id)`, answering its `items`, which may be absent. */
  function FetchOrderPaymentsStep(g: Remote, id: Option<string>): (Outcome<Option<seq<RemotePayment>>>, Remote) {
    var g1 := Logged(g, FetchOrderPayments(id));
    if Serves(g, OrdersFetchPayments) && id.Some? && id.value in g.orderPayments then
      (Ok(g.orderPayments[id.value]), g1)
    else (Thrown(g.failure), g1)
  }

  function FetchPaymentStep(g: Remote, id: string): (Outcome<RemotePayment>, Remote) {
    var g1 := Logged(g, FetchPayment(id));
    if Serves(g, PaymentsFetch) && id in g.payments then (Ok(g.payments[id]), g1)
    else (Thrown(g.failure), g1)
  }

  /** A capture succeeds for an authorized payment, with its own amount and currency. */
  function CaptureStep(g: Remote, id: string, amount: int, currency: string): (Outcome<RemotePayment>, Remote) {
    var g1 := Logged(g, CapturePayment(id, amount, currency));
    if Serves(g, PaymentsCapture) && id in g.payments && g.payments[id].status == "authorized"
       && g.payments[id].amount == amount && g.payments[id].currency == currency
    then
      var captured := g.payments[id].(status := "captured");
      (Ok(captured), g1.(payments := g.payments[id := captured]))
    else (Thrown(g.failure), g1)
  }

  function RefundStep(g: Remote, id: string, amount: int): (Outcome<RemoteRefund>, Remote) {
    var g1 := Logged(g, RefundPayment(id, amount));
    if Serves(g, PaymentsRefund) && id in g.payments && 0 < amount <= g.payments[id].amount then
      (Ok(RemoteRefund(id, amount)), g1)
    else (Thrown(g.failure), g1)
  }

  /** A customer create succeeds when the body carries a contact and an email. */
  function CreateCustomerStep(g: Remote, body: CustomerCreateBody): (res: (Outcome<RemoteCustomer>, Remote))
    ensures res.1.log == g.log + [CreateCustomer(body)]
    ensures res.0.Ok? ==> res.0.value.id !in CustomerIds(g.customers)
  {
    var g1 := Logged(g, CreateCustomer(body));
    if Serves(g, CustomersCreate) && body.contact.Some? && body.email != "" then
      var c := RemoteCustomer(FreshKey(CustomerIds(g.customers), "cust_"), Some(body.email),
                              body.contact, Some(body.name), body.gstin);
      (Ok(c), g1.(customers := g.customers + [c]))
    else (Thrown(g.failure), g1)
  }

  function FetchCustomerStep(g: Remote, id: Option<string>): (Outcome<RemoteCustomer>, Remote) {
    var g1 := Logged(g, FetchCustomer(id));
    var found := if id.Some? then FindCustomer(g.customers, id.value) else None;
    if Serves(g, CustomersFetch) && found.Some? then (Ok(found.value), g1)
    else (Thrown(g.failure), g1)
  }

  /** An edit keeps the fields the patch leaves undefined. */
  function EditCustomerStep(g: Remote, id: string, patch: CustomerPatch): (Outcome<RemoteCustomer>, Remote) {
    var g1 := Logged(g, EditCustomer(id, patch));
    var found := FindCustomer(g.customers, id);
    if Serves(g, CustomersEdit) && found.Some? then
      var c := found.value;
      var edited := c.(email := Coalesce(patch.email, c.email), contact := Coalesce(patch.contact, c.contact),
                       name := Some(patch.name));
      (Ok(edited), g1.(customers := ReplaceCustomer(g.customers, edited)))
    else (Thrown(g.failure), g1)
  }

  /** `customers.all({count, skip})`, answering its `items`. */
  function ListCustomersStep(g: Remote, count: nat, skip: nat): (Outcome<Option<seq<RemoteCustomer>>>, Remote) {
    var g1 := Logged(g, ListCustomers(count, skip));
    if !Serves(g, CustomersAll) then (Thrown(g.failure), g1)
    else
      var from := if skip <= |g.customers| then skip else |g.customers|;
      var to := if from + count <= |g.customers| then from + count else |g.customers|;
      (Ok(Some(g.customers[from..to])), g1)
  }

  /** An order the gateway created can be fetched back unchanged. */
  lemma CreatedOrderFetchesBack(g: Remote, req: OrderRequest)
    requires Serves(g, OrdersCreate) && Serves(g, OrdersFetch)
    ensures var (created, g1) := CreateOrderStep(g, req);
            created.Ok? && FetchOrderStep(g1, created.value.id).0 == created
  {
  }

  class RazorpayClient {
    var state: Remote

    constructor (initial: Remote)
      ensures state == initial
    {
      state := initial;
    }

    method CreateOrder(req: OrderRequest) returns (r: Outcome<SessionData>)
      modifies this
      ensures (r, state) == CreateOrderStep(old(state), req)
    {
      var res := CreateOrderStep(state, req);
      r, state := res.0, res.1;
    }

    method FetchOrder(id: Option<string>) returns (r: Outcome<SessionData>)
      modifies this
      ensures (r, state) == FetchOrderStep(old(state), id)
    {
      var res := FetchOrderStep(state, id);
      r, state := res.0, res.1;
    }

    method EditOrder(id: string, notes: map<string, string>) returns (r: Outcome<SessionData>)
      modifies this
      ensures (r, state) == EditOrderStep(old(state), id, notes)
    {
      var res := EditOrderStep(state, id, notes);
      r, state := res.0, res.1;
    }

    method FetchOrderPayments(id: Option<string>) returns (r: Outcome<Option<seq<RemotePayment>>>)
      modifies this
      ensures (r, state) == FetchOrderPaymentsStep(old(state), id)
    {
      var res := FetchOrderPaymentsStep(state, id);
      r, state := res.0, res.1;
    }

    method FetchPayment(id: string) returns (r: Outcome<RemotePayment>)
      modifies this
      ensures (r, state) == FetchPaymentStep(old(state), id)
    {
      var res := FetchPaymentStep(state, id);
      r, state := res.0, res.1;
    }

    method Capture(id: string, amount: int, currency: string) returns (r: Outcome<RemotePayment>)
      modifies this
      ensures (r, state) == CaptureStep(old(state), id, amount, currency)
    {
      var res := CaptureStep(state, id, amount, currency);
      r, state := res.0, res.1;
    }

    method Refund(id: string, amount: int) returns (r: Outcome<RemoteRefund>)
      modifies this
      ensures (r, state) == RefundStep(old(state), id, amount)
    {
      var res := RefundStep(state, id, amount);
      r, state := res.0, res.1;
    }

    method CreateCustomer(body: CustomerCreateBody) returns (r: Outcome<RemoteCustomer>)
      modifies this
      ensures (r, state) == CreateCustomerStep(old(state), body)
    {
      var res := CreateCustomerStep(state, body);
      r, state := res.0, res.1;
    }

    method FetchCustomer(id: Option<string>) returns (r: Outcome<RemoteCustomer>)
      modifies this
      ensures (r, state) == FetchCustomerStep(old(state), id)
    {
      var res := FetchCustomerStep(state, id);
      r, state := res.0, res.1;
    }

    method EditCustomer(id: string, patch: CustomerPatch) returns (r: Outcome<RemoteCustomer>)
      modifies this
      ensures (r, state) == EditCustomerStep(old(state), id, patch)
    {
      var res := EditCustomerStep(state, id, patch);
      r, state := res.0, res.1;
    }

    method ListCustomers(count: nat, skip: nat) returns (r: Outcome<Option<seq<RemoteCustomer>>>)
      modifies this
      ensures (r, state) == ListCustomersStep(old(state), count, skip)
    {
      var res := ListCustomersStep(state, count, skip);
      r, state := res.0, res.1;
    }
  }
}
