/**
 * The pure parts of the adapter: the bodies it sends to the gateway, the
 * identifiers it reads out of customer metadata, the metadata it writes back,
 * how it picks a customer out of a listing, and how it collects captured
 * payments and refunds.
 */
module Requests {
  import opened RazorpayTypes

  // ----- Intent options -----

  /** `getPaymentIntentOptions`: the subclass's intent options, keeping only the truthy ones. */
  function GetPaymentIntentOptions(p: PaymentIntentOptions): (r: PaymentIntentOptions)
    ensures r.capture_method.Some? <==> Truthy(p.capture_method)
    ensures r.setup_future_usage.Some? <==> Truthy(p.setup_future_usage)
    ensures r.capture_method.Some? ==> r.capture_method == p.capture_method
    ensures r.setup_future_usage.Some? ==> r.setup_future_usage == p.setup_future_usage
    ensures r.payment_method_types == p.payment_method_types
  {
    PaymentIntentOptions(
      if Truthy(p.capture_method) then p.capture_method else None,
      if Truthy(p.setup_future_usage) then p.setup_future_usage else None,
      p.payment_method_types)
  }

  /** Filtering the options twice filters nothing more. */
  lemma IntentOptionsIdempotent(p: PaymentIntentOptions)
    ensures GetPaymentIntentOptions(GetPaymentIntentOptions(p)) == GetPaymentIntentOptions(p)
  {
  }

  // ----- Order-create request -----

  /**
   * The order-create request of `initiatePayment`: the amount, the currency
   * upper-cased, the session's notes with `resource_id` on top, the capture
   * mode the `capture` option selects, the capture options with their
   * defaults, and the intent options.
   */
  function BuildOrderRequest(cfg: Config, amount: int, currency: string, resource_id: string,
                             sessionNotes: Option<map<string, string>>): (r: OrderRequest)
    ensures r.amount == amount && r.currency == ToUpper(currency)
    ensures r.notes.Keys == sessionNotes.GetOr(map[]).Keys + {"resource_id"}
    ensures r.notes["resource_id"] == resource_id
    ensures forall k :: k in sessionNotes.GetOr(map[]) && k != "resource_id" ==> r.notes[k] == sessionNotes.GetOr(map[])[k]
    ensures r.payment.capture == "automatic" <==> cfg.options.capture
    ensures r.payment.capture == "manual" <==> !cfg.options.capture
    ensures r.intent == GetPaymentIntentOptions(cfg.intent)
    ensures r.payment.capture_options.refund_speed == cfg.options.refund_speed.GetOr("normal")
    ensures r.payment.capture_options.automatic_expiry_period == cfg.options.automatic_expiry_period.GetOr(5)
    ensures r.payment.capture_options.manual_expiry_period == cfg.options.manual_expiry_period.GetOr(10)
  {
    var o := cfg.options;
    OrderRequest(
      amount,
      ToUpper(currency),
      sessionNotes.GetOr(map[])["resource_id" := resource_id],
      PaymentConfig(
        if o.capture then "automatic" else "manual",
        CaptureOptions(o.refund_speed.GetOr("normal"), o.automatic_expiry_period.GetOr(5),
                       o.manual_expiry_period.GetOr(10))),
      GetPaymentIntentOptions(cfg.intent))
  }

  /** Options left unset give a normal refund speed and expiry periods of 5 and 10. */
  lemma OrderRequestDefaults(cfg: Config, amount: int, currency: string, resource_id: string,
                             sessionNotes: Option<map<string, string>>)
    requires cfg.options.refund_speed.None? && cfg.options.automatic_expiry_period.None?
    requires cfg.options.manual_expiry_period.None?
    ensures BuildOrderRequest(cfg, amount, currency, resource_id, sessionNotes).payment.capture_options
            == CaptureOptions("normal", 5, 10)
  {
  }

  /** `update_requests` of a session response: asked for unless the customer already has a truthy `razorpay_id`. */
  function UpdateRequestsFor(customer: Option<CustomerData>, notes: map<string, string>): (r: Option<UpdateRequests>)
    ensures r.None? <==> customer.Some? && customer.value.metadata.Some? && Truthy(customer.value.metadata.value.razorpay_id)
    ensures r.Some? ==> r.value.razorpay_id == Lookup(notes, "razorpay_id")
  {
    if customer.Some? && customer.value.metadata.Some? && Truthy(customer.value.metadata.value.razorpay_id) then None
    else Some(UpdateRequests(Lookup(notes, "razorpay_id")))
  }

  // ----- Customer identifiers -----

  /**
   * `customer.metadata.razorpay_id || customer.metadata.razorpay.rp_customer_id`,
   * which reads a property of undefined when the metadata is absent, or when
   * `razorpay_id` is falsy and the nested record is absent.
   */
  function ExistingRemoteId(c: CustomerData): (r: Eval<Option<string>>)
    ensures c.metadata.None? ==> r.Fault?
    ensures c.metadata.Some? && Truthy(c.metadata.value.razorpay_id) ==> r == Val(c.metadata.value.razorpay_id)
    ensures c.metadata.Some? && !Truthy(c.metadata.value.razorpay_id) ==>
              (r.Fault? <==> c.metadata.value.razorpay.None?)
              && (c.metadata.value.razorpay.Some? ==> r == Val(Lookup(c.metadata.value.razorpay.value, "rp_customer_id")))
  {
    match c.metadata
    case None => Fault
    case Some(m) =>
      if Truthy(m.razorpay_id) then Val(m.razorpay_id)
      else if m.razorpay.Some? then Val(Lookup(m.razorpay.value, "rp_customer_id"))
      else Fault
  }

  /**
   * The test guarding the edit path of `createOrUpdateCustomer`: a truthy
   * `razorpay_id`, or else a nested record with a truthy `rp_customer_id`.
   * A read that throws counts as no link.
   */
  predicate HasExistingRemoteId(customer: Option<CustomerData>): (b: bool)
    ensures b <==> customer.Some? && customer.value.metadata.Some?
                   && (Truthy(customer.value.metadata.value.razorpay_id)
                       || (customer.value.metadata.value.razorpay.Some?
                           && Truthy(Lookup(customer.value.metadata.value.razorpay.value, "rp_customer_id"))))
  {
    customer.Some? && ExistingRemoteId(customer.value).Val? && Truthy(ExistingRemoteId(customer.value).v)
  }

  /**
   * `customer?.metadata?.razorpay_id || customer?.metadata?.razopay.rp_customer_id`
   * of `updatePayment`, reading the misspelt key `razopay`: it reads a
   * property of undefined whenever the metadata exists, its `razorpay_id` is
   * falsy and it has no `razopay` key.
   */
  function UpdatePaymentRemoteId(customer: Option<CustomerData>): (r: Eval<Option<string>>)
    ensures customer.None? || customer.value.metadata.None? ==> r == Val(None)
    ensures customer.Some? && customer.value.metadata.Some? && Truthy(customer.value.metadata.value.razorpay_id)
            ==> r == Val(customer.value.metadata.value.razorpay_id)
    ensures r.Fault? <==> customer.Some? && customer.value.metadata.Some?
                          && !Truthy(customer.value.metadata.value.razorpay_id)
                          && "razopay" !in customer.value.metadata.value.others
    ensures customer.Some? && customer.value.metadata.Some? && !Truthy(customer.value.metadata.value.razorpay_id) ==>
              var m := customer.value.metadata.value;
              "razopay" in m.others && m.others["razopay"].Nested?
              ==> r == Val(Lookup(m.others["razopay"].fields, "rp_customer_id"))
  {
    match customer
    case None => Val(None)
    case Some(c) =>
      match c.metadata
      case None => Val(None)
      case Some(m) =>
        if Truthy(m.razorpay_id) then Val(m.razorpay_id)
        else if "razopay" !in m.others then Fault
        else match m.others["razopay"]
          case Text(_) => Val(None)
          case Nested(f) => Val(Lookup(f, "rp_customer_id"))
  }

  /**
   * A customer linked only through the nested `razorpay.rp_customer_id`,
   * which is what this adapter itself writes, makes that read fail.
   */
  lemma NestedLinkFailsUpdateRead(c: CustomerData)
    requires c.metadata.Some? && !Truthy(c.metadata.value.razorpay_id)
    requires c.metadata.value.razorpay.Some? && "razopay" !in c.metadata.value.others
    ensures UpdatePaymentRemoteId(Some(c)).Fault?
    ensures ExistingRemoteId(c) == Val(Lookup(c.metadata.value.razorpay.value, "rp_customer_id"))
  {
  }

  /** `notes.key = value`, where assigning undefined leaves no value to read. */
  function SetNote(notes: map<string, string>, key: string, value: Option<string>): (r: map<string, string>)
    ensures Lookup(r, key) == value
    ensures forall k :: k in notes && k != key ==> k in r && r[k] == notes[k]
    ensures forall k :: k in r && k != key ==> k in notes
  {
    if value.Some? then notes[key := value.value] else notes - {key}
  }

  // ----- Customer bodies -----

  /**
   * The patch `editExistingRpCustomer` sends: email from the cart, else the
   * customer, else the gateway record; name from the billing address, else
   * the customer, with undefined spelt out; contact from the billing address,
   * else the customer's truthy phone, else the customer's billing phone, else
   * the gateway record. It reads a property of undefined when the cart has no
   * billing address.
   */
  function EditPatch(cart: Cart, c: CustomerData, remote: RemoteCustomer): (r: Eval<CustomerPatch>)
    ensures r.Fault? <==> cart.billing_address.None?
  {
    match cart.billing_address
    case None => Fault
    case Some(b) =>
      var email := Coalesce(cart.email, c.email);
      var name := Show(Coalesce(b.first_name, c.first_name)) + " " + Show(Coalesce(b.last_name, c.last_name));
      var phone := Coalesce(b.phone, OrElse(c.phone, BillingPhone(c.billing_address)));
      Val(CustomerPatch(Coalesce(email, remote.email), Coalesce(phone, remote.contact), name))
  }

  /** Values the cart gives take precedence over the customer's, which take precedence over the gateway's. */
  lemma EditPatchPrecedence(cart: Cart, c: CustomerData, remote: RemoteCustomer)
    requires cart.billing_address.Some?
    ensures var p := EditPatch(cart, c, remote).v;
            (cart.email.Some? ==> p.email == cart.email)
            && (cart.email.None? && c.email.Some? ==> p.email == c.email)
            && (cart.email.None? && c.email.None? ==> p.email == remote.email)
            && (cart.billing_address.value.phone.Some? ==> p.contact == cart.billing_address.value.phone)
            && (cart.billing_address.value.phone.None? && Truthy(c.phone) ==> p.contact == c.phone)
            && (cart.billing_address.value.phone.None? && !Truthy(c.phone)
                ==> p.contact == Coalesce(BillingPhone(c.billing_address), remote.contact))
            && (var b := cart.billing_address.value;
                b.first_name.Some? && b.last_name.Some? ==> p.name == b.first_name.value + " " + b.last_name.value)
  {
  }

  /** `billing ?? own ?? ""` */
  function NamePart(billing: Option<string>, own: Option<string>): string {
    Coalesce(billing, own).GetOr("")
  }

  /**
   * The body `createRazorpayCustomer` sends: contact from the billing
   * address, else the customer, else the customer's billing address; gstin
   * from the billing address, else the metadata; first and last names from
   * the billing address, else the customer, else "". It reads a property of
   * undefined when the cart has no billing address, and when it needs a value
   * of the customer and there is none.
   */
  function CreateBody(cart: Cart, customer: Option<CustomerData>, email: string): (r: Eval<CustomerCreateBody>)
    ensures cart.billing_address.None? ==> r.Fault?
    ensures customer.Some? && cart.billing_address.Some? ==> r.Val?
    ensures r.Val? ==> r.v.email == email && r.v.fail_existing == 0
    ensures r.Fault? <==> cart.billing_address.None?
                          || (customer.None? && (cart.billing_address.value.phone.None?
                                                 || cart.billing_address.value.first_name.None?
                                                 || cart.billing_address.value.last_name.None?))
    ensures r.Val? ==> var b := cart.billing_address.value;
            (b.phone.Some? ==> r.v.contact == b.phone)
            && (b.phone.None? && customer.value.phone.Some? ==> r.v.contact == customer.value.phone)
            && (b.phone.None? && customer.value.phone.None? ==> r.v.contact == BillingPhone(customer.value.billing_address))
    ensures r.Val? ==> var b := cart.billing_address.value;
            (b.gstin.Some? ==> r.v.gstin == b.gstin)
            && (b.gstin.None? && customer.Some? && customer.value.metadata.Some? ==> r.v.gstin == customer.value.metadata.value.gstin)
            && (b.gstin.None? && (customer.None? || customer.value.metadata.None?) ==> r.v.gstin.None?)
    ensures r.Val? ==> var b := cart.billing_address.value;
            (b.first_name.Some? && b.last_name.Some? ==> r.v.name == b.first_name.value + " " + b.last_name.value)
            && (customer.Some? ==> r.v.name == NamePart(b.first_name, customer.value.first_name) + " "
                                              + NamePart(b.last_name, customer.value.last_name))
  {
    var billingPhone := BillingPhone(cart.billing_address);
    var contact: Eval<Option<string>> :=
      if billingPhone.Some? then Val(billingPhone)
      else if customer.None? then Fault
      else Val(Coalesce(customer.value.phone, BillingPhone(customer.value.billing_address)));
    var billingGstin := if cart.billing_address.Some? then cart.billing_address.value.gstin else None;
    var metaGstin := if customer.Some? && customer.value.metadata.Some? then customer.value.metadata.value.gstin else None;
    if contact.Fault? || cart.billing_address.None? then Fault
    else
      var b := cart.billing_address.value;
      var first: Eval<string> :=
        if b.first_name.Some? then Val(b.first_name.value)
        else if customer.None? then Fault
        else Val(customer.value.first_name.GetOr(""));
      var last: Eval<string> :=
        if b.last_name.Some? then Val(b.last_name.value)
        else if customer.None? then Fault
        else Val(customer.value.last_name.GetOr(""));
      if first.Fault? || last.Fault? then Fault
      else Val(CustomerCreateBody(email, contact.v, Coalesce(billingGstin, metaGstin), 0, first.v + " " + last.v))
  }

  // ----- Metadata written back -----

  /**
   * The metadata `updateRazorpayMetadatainCustomer` sends: the customer's
   * metadata with `razorpay[name] = value`, or only that nested record when
   * the customer has no metadata.
   */
  function MetadataWithEntry(md: Option<Metadata>, name: string, value: string): (r: Metadata)
    ensures r.razorpay.Some? && name in r.razorpay.value && r.razorpay.value[name] == value
    ensures r.razorpay.value.Keys == (if md.Some? then md.value.razorpay.GetOr(map[]).Keys else {}) + {name}
    ensures md.Some? ==> forall k :: k in md.value.razorpay.GetOr(map[]) && k != name
                           ==> r.razorpay.value[k] == md.value.razorpay.GetOr(map[])[k]
    ensures md.Some? ==> r.razorpay_id == md.value.razorpay_id && r.gstin == md.value.gstin && r.others == md.value.others
    ensures md.None? ==> r.razorpay_id.None? && r.gstin.None? && r.others == map[]
  {
    match md
    case Some(m) => m.(razorpay := Some(m.razorpay.GetOr(map[])[name := value]))
    case None => Metadata(None, Some(map[name := value]), None, map[])
  }

  /**
   * The customer object after that update: the nested record is changed in
   * place only when it already existed; otherwise the object is unchanged.
   */
  function CustomerAfterEntry(c: CustomerData, name: string, value: string): (r: CustomerData)
    ensures r.id == c.id && r.email == c.email && r.phone == c.phone && r.billing_address == c.billing_address
    ensures c.metadata.Some? && c.metadata.value.razorpay.Some? ==> r.metadata == Some(MetadataWithEntry(c.metadata, name, value))
    ensures c.metadata.None? || c.metadata.value.razorpay.None? ==> r == c
  {
    if c.metadata.Some? && c.metadata.value.razorpay.Some? then c.(metadata := Some(MetadataWithEntry(c.metadata, name, value)))
    else c
  }

  // ----- Picking a customer out of a listing -----

  /** The `find` callback of `pollAndRetrieveCustomer`, with loose equality (undefined equals undefined). */
  predicate MatchesCustomer(rc: RemoteCustomer, phone: Option<string>, email: Option<string>) {
    rc.contact == phone || rc.email == email
  }

  /** The first listed customer that matches. */
  function FindMatching(items: seq<RemoteCustomer>, phone: Option<string>, email: Option<string>): (r: Option<RemoteCustomer>)
    ensures r.Some? ==> exists i :: 0 <= i < |items| && items[i] == r.value && MatchesCustomer(items[i], phone, email)
                                   && forall j :: 0 <= j < i ==> !MatchesCustomer(items[j], phone, email)
    ensures r.None? ==> forall i :: 0 <= i < |items| ==> !MatchesCustomer(items[i], phone, email)
  {
    if |items| == 0 then None
    else if MatchesCustomer(items[0], phone, email) then Some(items[0])
    else
      var rest := FindMatching(items[1..], phone, email);
      assert rest.None? ==> forall i :: 1 <= i < |items| ==> !MatchesCustomer(items[i], phone, email) by {
        if rest.None? {
          forall i | 1 <= i < |items| ensures !MatchesCustomer(items[i], phone, email) {
            assert items[i] == items[1..][i - 1];
          }
        }
      }
      assert rest.Some? ==> exists i :: 0 <= i < |items| && items[i] == rest.value && MatchesCustomer(items[i], phone, email)
                                   && forall j :: 0 <= j < i ==> !MatchesCustomer(items[j], phone, email) by {
        if rest.Some? {
          var k :| 0 <= k < |items[1..]| && items[1..][k] == rest.value && MatchesCustomer(items[1..][k], phone, email)
                   && forall j :: 0 <= j < k ==> !MatchesCustomer(items[1..][j], phone, email);
          assert items[k + 1] == items[1..][k];
          forall j | 0 <= j < k + 1 ensures !MatchesCustomer(items[j], phone, email) {
            if j > 0 { assert items[j] == items[1..][j - 1]; }
          }
        }
      }
      rest
  }

  /** `customerList?.find(matches) ?? customerList?.[0]` */
  function PickCustomer(page: Option<seq<RemoteCustomer>>, c: CustomerData): (r: Option<RemoteCustomer>)
    ensures r.None? <==> page.None? || |page.value| == 0
    ensures r.Some? ==> r.value in page.value
  {
    match page
    case None => None
    case Some(items) =>
      var found := FindMatching(items, c.phone, c.email);
      if found.Some? then found
      else if |items| > 0 then Some(items[0])
      else None
  }

  /** A listing with a matching customer yields the first match; one without yields its first customer. */
  lemma PickPrefersMatch(items: seq<RemoteCustomer>, c: CustomerData)
    requires |items| > 0
    ensures (exists i :: 0 <= i < |items| && MatchesCustomer(items[i], c.phone, c.email))
            ==> PickCustomer(Some(items), c) == FindMatching(items, c.phone, c.email)
                && MatchesCustomer(PickCustomer(Some(items), c).value, c.phone, c.email)
    ensures (forall i :: 0 <= i < |items| ==> !MatchesCustomer(items[i], c.phone, c.email))
            ==> PickCustomer(Some(items), c) == Some(items[0])
  {
    var found := FindMatching(items, c.phone, c.email);
    if found.Some? {
      var i :| 0 <= i < |items| && items[i] == found.value && MatchesCustomer(items[i], c.phone, c.email)
               && forall j :: 0 <= j < i ==> !MatchesCustomer(items[j], c.phone, c.email);
    }
  }

  // ----- Captured payments -----

  /** `items.filter(item => item.status == "authorized")` */
  function AuthorizedOnly(ps: seq<RemotePayment>): (r: seq<RemotePayment>)
    ensures forall p :: p in r <==> p in ps && p.status == "authorized"
    ensures |r| <= |ps|
  {
    if |ps| == 0 then []
    else
      var rest := AuthorizedOnly(ps[1..]);
      assert forall p :: p in ps <==> p == ps[0] || p in ps[1..];
      if ps[0].status == "authorized" then [ps[0]] + rest else rest
  }

  /** Each authorized payment is kept as often as it is listed, and no other payment is kept. */
  lemma {:induction false} AuthorizedOnlyCounts(ps: seq<RemotePayment>)
    ensures forall p :: multiset(AuthorizedOnly(ps))[p] == (if p.status == "authorized" then multiset(ps)[p] else 0)
  {
    if |ps| > 0 {
      AuthorizedOnlyCounts(ps[1..]);
      assert ps == [ps[0]] + ps[1..];
      assert multiset(ps) == multiset([ps[0]]) + multiset(ps[1..]);
    }
  }

  /** Filtering keeps the order: the filter of a concatenation is the concatenation of the filters. */
  lemma {:induction false} AuthorizedOnlyAppend(a: seq<RemotePayment>, b: seq<RemotePayment>)
    ensures AuthorizedOnly(a + b) == AuthorizedOnly(a) + AuthorizedOnly(b)
  {
    if |a| > 0 {
      assert (a + b)[0] == a[0];
      assert (a + b)[1..] == a[1..] + b;
      AuthorizedOnlyAppend(a[1..], b);
    } else {
      assert a + b == b;
    }
  }

  function KeysOf(e: seq<(string, RemotePayment)>): (ks: seq<string>)
    ensures |ks| == |e| && forall i :: 0 <= i < |e| ==> ks[i] == e[i].0
  {
    seq(|e|, i requires 0 <= i < |e| => e[i].0)
  }

  /** `acc[key] = value` on an object: an existing key keeps its place, a new key goes last. */
  function Put(e: seq<(string, RemotePayment)>, key: string, value: RemotePayment): seq<(string, RemotePayment)> {
    if exists i :: 0 <= i < |e| && e[i].0 == key then
      seq(|e|, i requires 0 <= i < |e| => if e[i].0 == key then (key, value) else e[i])
    else e + [(key, value)]
  }

  /** `payments.reduce((acc, curr) => ((acc[curr.id] = curr), acc), {})` */
  function ById(ps: seq<RemotePayment>): seq<(string, RemotePayment)> {
    if |ps| == 0 then [] else Put(ById(ps[..|ps| - 1]), ps[|ps| - 1].id, ps[|ps| - 1])
  }

  /** The last payment in the list with the given id. */
  function LastWithId(ps: seq<RemotePayment>, id: string): Option<RemotePayment> {
    if |ps| == 0 then None
    else if ps[|ps| - 1].id == id then Some(ps[|ps| - 1])
    else LastWithId(ps[..|ps| - 1], id)
  }

  /** The payment found is one of the list's, with that id. */
  lemma {:induction false} LastWithIdIn(ps: seq<RemotePayment>, id: string)
    ensures LastWithId(ps, id).Some? ==> LastWithId(ps, id).value in ps && LastWithId(ps, id).value.id == id
  {
    if |ps| > 0 && ps[|ps| - 1].id != id {
      LastWithIdIn(ps[..|ps| - 1], id);
    }
  }

  predicate DistinctKeys(e: seq<(string, RemotePayment)>) {
    forall i, j :: 0 <= i < j < |e| ==> e[i].0 != e[j].0
  }

  /**
   * The reduced object has one entry per payment id, each holding the last
   * payment with that id, and no other entries.
   */
  lemma {:induction false} ByIdEntries(ps: seq<RemotePayment>)
    ensures DistinctKeys(ById(ps))
    ensures forall j :: 0 <= j < |ById(ps)| ==> Some(ById(ps)[j].1) == LastWithId(ps, ById(ps)[j].0)
    ensures forall j :: 0 <= j < |ById(ps)| ==> ById(ps)[j].1.id == ById(ps)[j].0
    ensures forall p :: p in ps ==> p.id in KeysOf(ById(ps))
  {
    if |ps| > 0 {
      var init := ps[..|ps| - 1];
      var x := ps[|ps| - 1];
      ByIdEntries(init);
      var e := ById(init);
      assert ById(ps) == Put(e, x.id, x);
      if exists i :: 0 <= i < |e| && e[i].0 == x.id {
        var r := ById(ps);
        assert |r| == |e|;
        forall j | 0 <= j < |r| ensures Some(r[j].1) == LastWithId(ps, r[j].0) && r[j].1.id == r[j].0 {
          if e[j].0 != x.id {
            assert r[j] == e[j];
          }
        }
        forall p | p in ps ensures p.id in KeysOf(r) {
          if p != x {
            assert p in init;
            var j :| 0 <= j < |e| && KeysOf(e)[j] == p.id;
            assert KeysOf(r)[j] == p.id;
          } else {
            var i :| 0 <= i < |e| && e[i].0 == x.id;
            assert KeysOf(r)[i] == p.id;
          }
        }
      } else {
        var r := ById(ps);
        assert r == e + [(x.id, x)];
        forall j | 0 <= j < |r| ensures Some(r[j].1) == LastWithId(ps, r[j].0) && r[j].1.id == r[j].0 {
          if j < |e| {
            assert r[j] == e[j];
          }
        }
        forall p | p in ps ensures p.id in KeysOf(r) {
          if p != x {
            assert p in init;
            var j :| 0 <= j < |e| && KeysOf(e)[j] == p.id;
            assert KeysOf(r)[j] == p.id;
          } else {
            assert KeysOf(r)[|e|] == p.id;
          }
        }
      }
    }
  }

  // ----- Refunds -----

  /**
   * The `find` callback of `refundPayment` as written: its body compares the
   * payment's amount with the refund amount but returns nothing, so it never
   * selects a payment.
   */
  predicate RefundCallbackAsWritten(p: RemotePayment, refundAmount: int) {
    false
  }

  function FindRefundable(ps: seq<RemotePayment>, refundAmount: int): Option<RemotePayment> {
    if |ps| == 0 then None
    else if RefundCallbackAsWritten(ps[0], refundAmount) then Some(ps[0])
    else FindRefundable(ps[1..], refundAmount)
  }

  /** So no payment is ever picked for a refund. */
  lemma {:induction false} NoPaymentIsRefundable(ps: seq<RemotePayment>, refundAmount: int)
    ensures FindRefundable(ps, refundAmount).None?
  {
    if |ps| > 0 {
      NoPaymentIsRefundable(ps[1..], refundAmount);
    }
  }

  /**
   * `refundSessions` after a refund: pushed onto a non-empty list, or a new
   * one-element list; either way the old refunds followed by the new one.
   */
  function AppendRefund(existing: Option<seq<RemoteRefund>>, refund: RemoteRefund): (r: seq<RemoteRefund>)
    ensures r == existing.GetOr([]) + [refund]
  {
    if existing.Some? && |existing.value| > 0 then existing.value + [refund] else [refund]
  }

  // ----- Signatures -----

  /** The message `_validateSignature` authenticates: order id, a bar, payment id. */
  function SignedMessage(order_id: string, payment_id: string): string {
    order_id + "|" + payment_id
  }

  /** `_validateSignature`, with the keyed hash given as a function of key and message. */
  predicate ValidateSignature(hmac: (string, string) -> string, key_secret: string,
                              payment_id: string, order_id: string, signature: string) {
    hmac(key_secret, SignedMessage(order_id, payment_id)) == signature
  }

  /** The first bar of a message sits right after the order id. */
  lemma BarAfterOrderId(o: string, p: string)
    requires '|' !in o
    ensures SignedMessage(o, p)[|o|] == '|'
    ensures forall i :: 0 <= i < |o| ==> SignedMessage(o, p)[i] != '|'
  {
    forall i | 0 <= i < |o| ensures SignedMessage(o, p)[i] != '|' {
      assert SignedMessage(o, p)[i] == o[i];
    }
  }

  /** Identifiers free of bars give distinct messages to distinct pairs. */
  lemma SignedMessageInjective(o1: string, p1: string, o2: string, p2: string)
    requires '|' !in o1 && '|' !in o2
    requires SignedMessage(o1, p1) == SignedMessage(o2, p2)
    ensures o1 == o2 && p1 == p2
  {
    BarAfterOrderId(o1, p1);
    BarAfterOrderId(o2, p2);
    var m := SignedMessage(o1, p1);
    assert |o1| == |o2|;
    assert o1 == m[..|o1|] == o2;
    assert p1 == m[|o1| + 1..] == p2;
  }
}
