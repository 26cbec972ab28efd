/**
 * Values shared by every part of the Razorpay payment adapter model:
 * JavaScript's undefined and its short-circuiting operators, the records
 * the adapter reads (carts, customers, gateway entities), the errors it
 * throws or returns, and the constants of its configuration.
 */
module RazorpayTypes {

  /** A value that may be null or undefined. */
  datatype Option<T> = None | Some(value: T) {
    function GetOr(default: T): T {
      if Some? then value else default
    }
  }

  /** JavaScript `a ?? b`: the left operand unless it is null or undefined. */
  function Coalesce<T>(a: Option<T>, b: Option<T>): Option<T> {
    if a.Some? then a else b
  }

  /** JavaScript truthiness of a value that is a string or undefined. */
  predicate Truthy(s: Option<string>) {
    s.Some? && s.value != ""
  }

  /** JavaScript `a || b` on values that are strings or undefined. */
  function OrElse(a: Option<string>, b: Option<string>): Option<string> {
    if Truthy(a) then a else b
  }

  /** A string or undefined written into a template literal. */
  function Show(s: Option<string>): string {
    if s.Some? then s.value else "undefined"
  }

  /** Reading `m[key]` of a string record. */
  function Lookup(m: map<string, string>, key: string): Option<string> {
    if key in m then Some(m[key]) else None
  }

  /**
   * The value of an expression that may read a property of undefined:
   * `Fault` is the TypeError that reading raises.
   */
  datatype Eval<T> = Val(v: T) | Fault

  /** A key of an object: absent, or present with a value that may be undefined. */
  datatype Field<T> = Missing | Has(value: Option<T>)

  predicate FieldTruthy(f: Field<string>) {
    f.Has? && Truthy(f.value)
  }

  /** Something thrown: the keys `error`, `code`, `detail` and `message` that error handling reads. */
  datatype Cause = Cause(error: Option<string>, code: Field<string>, detail: Field<string>, message: Option<string>)

  /** A possibly rejected call: a result, or the thrown cause. */
  datatype Outcome<T> = Ok(value: T) | Thrown(cause: Cause)

  /** The platform's test that an object is a payment processor error. */
  predicate IsProcessorError(c: Cause) {
    Truthy(c.error) || FieldTruthy(c.code) || FieldTruthy(c.detail)
  }

  /** The TypeError raised by reading a property of undefined. */
  const TypeErrorCause: Cause :=
    Cause(None, Missing, Missing, Some("Cannot read properties of undefined"))

  /** A platform error (MedusaError): it has a `code` key, which may be undefined. */
  function PlatformError(message: string, code: Option<string>): Cause {
    Cause(None, Has(code), Missing, Some(message))
  }

  /** The payment processor error the adapter returns instead of a session. */
  datatype ProcessorError = ProcessorError(error: string, code: Option<string>, detail: Field<string>)

  /** A processor error passed on where any failure is accepted. */
  function AsCause(e: ProcessorError): Cause {
    Cause(Some(e.error), Has(e.code), e.detail, None)
  }

  /** A value, or a processor error returned in its place. */
  datatype Result<T> = Success(value: T) | Failure(error: ProcessorError)

  const UNSUPPORTED_OPERATION: string := "payment_intent_operation_unsupported"
  const PAYMENT_INTENT_UNEXPECTED_STATE: string := "payment_intent_unexpected_state"
  const EOL: string := "\n"

  /** Payment session statuses of the platform. */
  datatype SessionStatus = Authorized | Pending | RequiresMore | Error | Canceled

  // ----- Platform records -----

  datatype Address = Address(first_name: Option<string>, last_name: Option<string>,
                             phone: Option<string>, gstin: Option<string>)

  datatype Cart = Cart(email: Option<string>, billing_address: Option<Address>, customer_id: Option<string>)

  /** A metadata value other than the keys the adapter reads by name. */
  datatype MetaValue = Text(text: string) | Nested(fields: map<string, string>)

  /**
   * A customer's metadata: `razorpay_id`, the nested `razorpay` record,
   * `gstin`, and every other key in `others` (which holds none of those three).
   */
  datatype Metadata = Metadata(razorpay_id: Option<string>, razorpay: Option<map<string, string>>,
                               gstin: Option<string>, others: map<string, MetaValue>)

  datatype CustomerData = CustomerData(id: string, email: Option<string>, phone: Option<string>,
                                       first_name: Option<string>, last_name: Option<string>,
                                       billing_address: Option<Address>, metadata: Option<Metadata>)

  /** `x?.billing_address?.phone` */
  function BillingPhone(a: Option<Address>): Option<string> {
    if a.Some? then a.value.phone else None
  }

  // ----- Gateway entities -----

  datatype RemoteCustomer = RemoteCustomer(id: string, email: Option<string>, contact: Option<string>,
                                           name: Option<string>, gstin: Option<string>)

  datatype RemotePayment = RemotePayment(id: string, amount: int, currency: string, status: string,
                                         notes: Option<map<string, string>>)

  datatype RemoteRefund = RemoteRefund(payment_id: string, amount: int)

  /**
   * A gateway order, which the adapter also keeps as its payment session
   * data. `payments` is an object keyed by payment id, held as its entries in
   * key order; `customer_id` is the session's `customer.id`.
   */
  datatype SessionData = SessionData(id: Option<string>, amount: Option<int>, currency: Option<string>,
                                     status: Option<string>, notes: Option<map<string, string>>,
                                     customer_id: Option<string>,
                                     payments: Option<seq<(string, RemotePayment)>>,
                                     refundSessions: Option<seq<RemoteRefund>>,
                                     created_at: Option<int>)

  const EmptySession: SessionData := SessionData(None, None, None, None, None, None, None, None, None)

  // ----- Configuration -----

  datatype RazorpayOptions = RazorpayOptions(capture: bool, refund_speed: Option<string>,
                                             automatic_expiry_period: Option<int>,
                                             manual_expiry_period: Option<int>)

  datatype PaymentIntentOptions = PaymentIntentOptions(capture_method: Option<string>,
                                                       setup_future_usage: Option<string>,
                                                       payment_method_types: Option<seq<string>>)

  const NoIntentOptions: PaymentIntentOptions := PaymentIntentOptions(None, None, None)

  /** The adapter's options and the intent options its subclass supplies. */
  datatype Config = Config(options: RazorpayOptions, intent: PaymentIntentOptions)

  // ----- Request bodies -----

  datatype CaptureOptions = CaptureOptions(refund_speed: string, automatic_expiry_period: int,
                                           manual_expiry_period: int)

  datatype PaymentConfig = PaymentConfig(capture: string, capture_options: CaptureOptions)

  /** An order-create request; `intent` holds the intent options spread into it. */
  datatype OrderRequest = OrderRequest(amount: int, currency: string, notes: map<string, string>,
                                       payment: PaymentConfig, intent: PaymentIntentOptions)

  datatype CustomerCreateBody = CustomerCreateBody(email: string, contact: Option<string>,
                                                   gstin: Option<string>, fail_existing: int, name: string)

  datatype CustomerPatch = CustomerPatch(email: Option<string>, contact: Option<string>, name: string)

  // ----- Upper-casing -----

  function UpperChar(c: char): char {
    if 'a' <= c <= 'z' then (c as int - 32) as char else c
  }

  /**
   * `s.toUpperCase()` on ASCII letters: every lower-case letter becomes its
   * capital, every other character stays, and no lower-case letter is left.
   */
  function ToUpper(s: string): (r: string)
    ensures |r| == |s|
    ensures forall i :: 0 <= i < |s| && 'a' <= s[i] <= 'z' ==> r[i] as int == s[i] as int - ('a' as int - 'A' as int)
    ensures forall i :: 0 <= i < |s| && !('a' <= s[i] <= 'z') ==> r[i] == s[i]
    ensures forall i :: 0 <= i < |r| ==> !('a' <= r[i] <= 'z')
  {
    seq(|s|, i requires 0 <= i < |s| => UpperChar(s[i]))
  }

  /** Upper-casing an upper-cased string changes nothing. */
  lemma ToUpperIdempotent(s: string)
    ensures ToUpper(ToUpper(s)) == ToUpper(s)
  {
    var u := ToUpper(s);
    assert forall i :: 0 <= i < |u| ==> ToUpper(u)[i] == u[i];
  }

  // ----- Session responses -----

  /** `update_requests.customer_metadata.razorpay_id` */
  datatype UpdateRequests = UpdateRequests(razorpay_id: Option<string>)

  /** A payment processor session response. */
  datatype SessionResponse = SessionResponse(session_data: SessionData, update_requests: Option<UpdateRequests>)
}
