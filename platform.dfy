/**
 * The commerce platform around the adapter: the cart service it reads carts
 * from, the customer service it writes customer metadata through, and the
 * mutable objects it is handed (a customer, a payment session's data, an
 * order-create request under construction, the payment context).
 */
module Platform {
  import opened RazorpayTypes

  /** One metadata update sent to the customer service. */
  datatype MetadataWrite = MetadataWrite(customerId: string, metadata: Metadata)

  datatype CustomerStore = CustomerStore(records: map<string, CustomerData>, down: bool,
                                         writes: seq<MetadataWrite>)

  const CustomerNotFound: Cause := PlatformError("Customer was not found", Some("not_found"))
  const CartNotFound: Cause := PlatformError("Cart was not found", Some("not_found"))

  /** `customerService.update(id, {metadata})`: the record's metadata becomes the one sent. */
  function UpdateCustomerStep(s: CustomerStore, id: string, metadata: Metadata): (Outcome<CustomerData>, CustomerStore) {
    var s1 := s.(writes := s.writes + [MetadataWrite(id, metadata)]);
    if !s.down && id in s.records then
      var updated := s.records[id].(metadata := Some(metadata));
      (Ok(updated), s1.(records := s.records[id := updated]))
    else (Thrown(CustomerNotFound), s1)
  }

  function RetrieveCart(carts: map<string, Cart>, id: string): Outcome<Cart> {
    if id in carts then Ok(carts[id]) else Thrown(CartNotFound)
  }

  class CustomerService {
    var state: CustomerStore

    constructor (initial: CustomerStore)
      ensures state == initial
    {
      state := initial;
    }

    method Update(id: string, metadata: Metadata) returns (r: Outcome<CustomerData>)
      modifies this
      ensures (r, state) == UpdateCustomerStep(old(state), id, metadata)
    {
      var res := UpdateCustomerStep(state, id, metadata);
      r, state := res.0, res.1;
    }
  }

  class CartService {
    var carts: map<string, Cart>

    constructor (initial: map<string, Cart>)
      ensures carts == initial
    {
      carts := initial;
    }

    method Retrieve(id: string) returns (r: Outcome<Cart>)
      ensures r == RetrieveCart(carts, id)
    {
      r := RetrieveCart(carts, id);
    }
  }

  /** A customer object, which the adapter may change in place. */
  class CustomerObject {
    var data: CustomerData

    constructor (initial: CustomerData)
      ensures data == initial
    {
      data := initial;
    }
  }

  /** `customer` of a context, where null stands for an undefined customer. */
  function DataOf(c: CustomerObject?): Option<CustomerData>
    reads c
  {
    if c == null then None else Some(c.data)
  }

  /** A payment session's data object. */
  class SessionObject {
    var data: SessionData

    constructor (initial: SessionData)
      ensures data == initial
    {
      data := initial;
    }
  }

  /** An order-create request under construction; its notes are written while customers are reconciled. */
  class IntentRequest {
    var body: OrderRequest

    constructor (initial: OrderRequest)
      ensures body == initial
    {
      body := initial;
    }
  }

  /** The payment processor context; `currency_code` is the field the adapter overwrites. */
  class PaymentContext {
    const email: string
    var currency_code: Option<string>
    const amount: int
    const resource_id: string
    const customer: CustomerObject?
    const paymentSessionData: SessionObject

    constructor (email: string, currency_code: Option<string>, amount: int, resource_id: string,
                 customer: CustomerObject?, paymentSessionData: SessionObject)
      ensures this.email == email && this.currency_code == currency_code && this.amount == amount
      ensures this.resource_id == resource_id && this.customer == customer
      ensures this.paymentSessionData == paymentSessionData
    {
      this.email := email;
      this.currency_code := currency_code;
      this.amount := amount;
      this.resource_id := resource_id;
      this.customer := customer;
      this.paymentSessionData := paymentSessionData;
    }
  }
}
