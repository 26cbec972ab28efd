/**
 * What both webhook handlers share: the platform's order service, the
 * response object, and the event switch that picks one order action and one
 * HTTP status from the event name and the order found for the cart.
 */
module Webhook {
  import opened RazorpayTypes

  /** A platform order as the handlers read it; `_id` is a separate, optional field. */
  datatype Order = Order(id: string, _id: Option<string>, status: string, payment_status: string)

  datatype OrderCall =
    | RetrieveByCartId(cartId: Option<string>)
    | UpdateOrder(orderKey: Option<string>, newStatus: string)
    | CaptureOrder(capturedId: string)

  /**
   * The order service's state: orders by id, the order of each cart, whether
   * the service is failing (and with what), and the calls it received.
   */
  datatype OrderStore = OrderStore(orders: map<string, Order>, byCart: map<string, string>,
                                   down: bool, failure: Cause, calls: seq<OrderCall>)

  /** `retrieveByCartId`: the cart's order, or a rejection. */
  function RetrieveStep(s: OrderStore, cartId: Option<string>): (res: (Outcome<Order>, OrderStore))
    ensures res.1 == s.(calls := s.calls + [RetrieveByCartId(cartId)])
    ensures res.0.Ok? <==> !s.down && cartId.Some? && cartId.value in s.byCart && s.byCart[cartId.value] in s.orders
    ensures res.0.Ok? ==> res.0.value == s.orders[s.byCart[cartId.value]]
  {
    var s1 := s.(calls := s.calls + [RetrieveByCartId(cartId)]);
    if !s.down && cartId.Some? && cartId.value in s.byCart && s.byCart[cartId.value] in s.orders then
      (Ok(s.orders[s.byCart[cartId.value]]), s1)
    else (Thrown(s.failure), s1)
  }

  /** `update(key, {status})`: sets the status of the order with that id; an undefined or unknown key is rejected. */
  function UpdateStep(s: OrderStore, key: Option<string>, status: string): (res: (Outcome<()>, OrderStore))
    ensures res.1.calls == s.calls + [UpdateOrder(key, status)] && res.1.byCart == s.byCart
    ensures res.0.Ok? <==> !s.down && key.Some? && key.value in s.orders
    ensures res.0.Ok? ==> res.1.orders == s.orders[key.value := s.orders[key.value].(status := status)]
    ensures res.0.Thrown? ==> res.1.orders == s.orders
  {
    var s1 := s.(calls := s.calls + [UpdateOrder(key, status)]);
    if !s.down && key.Some? && key.value in s.orders then
      (Ok(()), s1.(orders := s.orders[key.value := s.orders[key.value].(status := status)]))
    else (Thrown(s.failure), s1)
  }

  /** `capturePayment(id)`: marks the order's payment captured; an unknown id is rejected. */
  function CaptureStep(s: OrderStore, id: string): (res: (Outcome<()>, OrderStore))
    ensures res.1.calls == s.calls + [CaptureOrder(id)] && res.1.byCart == s.byCart
    ensures res.0.Ok? <==> !s.down && id in s.orders
    ensures res.0.Ok? ==> res.1.orders == s.orders[id := s.orders[id].(payment_status := "captured")]
    ensures res.0.Thrown? ==> res.1.orders == s.orders
  {
    var s1 := s.(calls := s.calls + [CaptureOrder(id)]);
    if !s.down && id in s.orders then
      (Ok(()), s1.(orders := s.orders[id := s.orders[id].(payment_status := "captured")]))
    else (Thrown(s.failure), s1)
  }

  /** The platform's order service, resolved from the request scope. */
  class OrderService {
    var state: OrderStore

    constructor (initial: OrderStore)
      ensures state == initial
    {
      state := initial;
    }

    method RetrieveByCart(cartId: Option<string>) returns (r: Outcome<Order>)
      modifies this
      ensures (r, state) == RetrieveStep(old(state), cartId)
    {
      var res := RetrieveStep(state, cartId);
      r, state := res.0, res.1;
    }

    method Update(key: Option<string>, status: string) returns (r: Outcome<()>)
      modifies this
      ensures (r, state) == UpdateStep(old(state), key, status)
    {
      var res := UpdateStep(state, key, status);
      r, state := res.0, res.1;
    }

    method CapturePayment(id: string) returns (r: Outcome<()>)
      modifies this
      ensures (r, state) == CaptureStep(old(state), id)
    {
      var res := CaptureStep(state, id);
      r, state := res.0, res.1;
    }
  }

  /** The response: the statuses sent on it, in order. */
  class Reply {
    var sent: seq<int>

    constructor ()
      ensures sent == []
    {
      sent := [];
    }

    method SendStatus(code: int)
      modifies this
      ensures sent == old(sent) + [code]
    {
      sent := sent + [code];
    }
  }

  /** What the signature validator did: accepted, refused, or threw. */
  datatype Validation = Valid | Invalid | Threw(cause: Cause)

  /** How a handler ended: it returned, or its promise was rejected with a cause. */
  datatype Finish = Returned | Rejected(cause: Cause)

  /**
   * The webhook body's fields the handlers read: the event name and
   * `payload.payment.entity.notes`, which is `None` when a link of that path
   * is missing.
   */
  datatype Payload = Payload(event: Option<string>, notes: Option<map<string, string>>)

  /** The order action an event calls for. */
  datatype Action = MarkRequiresAction(orderKey: Option<string>) | CaptureOrderOf(orderId: string) | NoAction

  datatype Decision = Decision(action: Action, status: int)

  const PAYMENT_FAILED := "payment.failed"
  const PAYMENT_CAPTURED := "payment.captured"

  /** The event switch: the order action, and the status sent once the action is done. */
  function Decide(event: Option<string>, order: Option<Order>): Decision {
    if event == Some(PAYMENT_FAILED) then
      if order.Some? then Decision(MarkRequiresAction(order.value._id), 200) else Decision(NoAction, 200)
    else if event == Some(PAYMENT_CAPTURED) then
      if order.Some? && order.value.payment_status != "captured" then Decision(CaptureOrderOf(order.value.id), 200)
      else Decision(NoAction, 404)
    else Decision(NoAction, 204)
  }

  /**
   * The switch as a table: a failed payment answers 200 and marks a found
   * order, through its `_id`; a captured payment captures a found, not yet
   * captured order through its `id` and answers 200, and answers 404 with no
   * action otherwise; any other event answers 204 with no action.
   */
  lemma DecideTable(event: Option<string>, order: Option<Order>)
    ensures var d := Decide(event, order);
            (d.status == 200 <==> event == Some(PAYMENT_FAILED)
                                  || (event == Some(PAYMENT_CAPTURED) && order.Some? && order.value.payment_status != "captured"))
            && (d.status == 404 <==> event == Some(PAYMENT_CAPTURED) && (order.None? || order.value.payment_status == "captured"))
            && (d.status == 204 <==> event != Some(PAYMENT_FAILED) && event != Some(PAYMENT_CAPTURED))
            && (d.action.MarkRequiresAction? <==> event == Some(PAYMENT_FAILED) && order.Some?)
            && (d.action.MarkRequiresAction? ==> d.action.orderKey == order.value._id)
            && (d.action.CaptureOrderOf? <==> d.status == 200 && event == Some(PAYMENT_CAPTURED))
            && (d.action.CaptureOrderOf? ==> d.action.orderId == order.value.id)
  {
  }

  /** Carrying out an action on the order service. */
  function Perform(s: OrderStore, a: Action): (Outcome<()>, OrderStore) {
    match a
    case MarkRequiresAction(key) => UpdateStep(s, key, "requires_action")
    case CaptureOrderOf(id) => CaptureStep(s, id)
    case NoAction => (Ok(()), s)
  }

  /**
   * From the correlation id on: look the order up (a rejection counts as no
   * order), act on the event, then send the status, unless the action was
   * rejected, which rejects the handler with nothing sent.
   */
  function DispatchSpec(s: OrderStore, event: Option<string>, cartId: Option<string>): (Finish, OrderStore, seq<int>) {
    var (found, s1) := RetrieveStep(s, cartId);
    var d := Decide(event, if found.Ok? then Some(found.value) else None);
    var (done, s2) := Perform(s1, d.action);
    if done.Thrown? then (Rejected(done.cause), s2, []) else (Returned, s2, [d.status])
  }

  /** The part of each handler after it has its event and correlation id. */
  method Dispatch(orderService: OrderService, res: Reply, event: Option<string>, cartId: Option<string>)
    returns (finish: Finish)
    modifies orderService, res
    ensures var (f, s, statuses) := DispatchSpec(old(orderService.state), event, cartId);
            finish == f && orderService.state == s && res.sent == old(res.sent) + statuses
  {
    var found := orderService.RetrieveByCart(cartId);
    var order := if found.Ok? then Some(found.value) else None;
    if event == Some(PAYMENT_FAILED) {
      if order.Some? {
        var done := orderService.Update(order.value._id, "requires_action");
        if done.Thrown? {
          return Rejected(done.cause);
        }
      }
    } else if event == Some(PAYMENT_CAPTURED) {
      if order.Some? && order.value.payment_status != "captured" {
        var done := orderService.CapturePayment(order.value.id);
        if done.Thrown? {
          return Rejected(done.cause);
        }
      } else {
        res.SendStatus(404);
        return Returned;
      }
    } else {
      res.SendStatus(204);
      return Returned;
    }
    res.SendStatus(200);
    return Returned;
  }

  /** The orders touched by a dispatch: at most the one order found, and only its status or payment status. */
  lemma DispatchTouchesFoundOrderOnly(s: OrderStore, event: Option<string>, cartId: Option<string>)
    ensures var (f, s2, statuses) := DispatchSpec(s, event, cartId);
            var (found, s1) := RetrieveStep(s, cartId);
            s2.byCart == s.byCart && s2.down == s.down
            && (found.Thrown? || (event != Some(PAYMENT_FAILED) && event != Some(PAYMENT_CAPTURED)) ==> s2.orders == s.orders)
            && (forall k :: k in s.orders && (found.Thrown? || (k != found.value.id && Some(k) != found.value._id))
                            ==> k in s2.orders && s2.orders[k] == s.orders[k])
            && s2.orders.Keys == s.orders.Keys
  {
  }

  /**
   * Each dispatch sends exactly one status, or none when an order action is
   * rejected; the order service sees the lookup and at most one action.
   */
  lemma DispatchOneStatus(s: OrderStore, event: Option<string>, cartId: Option<string>)
    ensures var (f, s2, statuses) := DispatchSpec(s, event, cartId);
            (|statuses| == 1 <==> f.Returned?) && (f.Rejected? ==> statuses == [])
            && s.calls + [RetrieveByCartId(cartId)] <= s2.calls
            && |s2.calls| <= |s.calls| + 2
  {
  }

  /** A failed payment whose order is found by its `_id` marks it `requires_action` and answers 200. */
  lemma FailedPaymentMarksOrder(s: OrderStore, cartId: Option<string>)
    requires RetrieveStep(s, cartId).0.Ok?
    requires var o := RetrieveStep(s, cartId).0.value; o._id.Some? && o._id.value in s.orders
    ensures var (f, s2, statuses) := DispatchSpec(s, Some(PAYMENT_FAILED), cartId);
            var k := RetrieveStep(s, cartId).0.value._id.value;
            f == Returned && statuses == [200] && s2.orders[k].status == "requires_action"
            && s2.calls == s.calls + [RetrieveByCartId(cartId), UpdateOrder(Some(k), "requires_action")]
  {
  }

  /**
   * A failed payment on an order without `_id` asks the order service to
   * update an undefined id, which it rejects: nothing is sent.
   */
  lemma FailedPaymentWithoutUnderscoreId(s: OrderStore, cartId: Option<string>)
    requires RetrieveStep(s, cartId).0.Ok? && RetrieveStep(s, cartId).0.value._id.None?
    ensures var (f, s2, statuses) := DispatchSpec(s, Some(PAYMENT_FAILED), cartId);
            f == Rejected(s.failure) && statuses == [] && s2.orders == s.orders
  {
  }

  /** A captured payment captures the found order once, and answers 200 when the capture succeeds. */
  lemma CapturedPaymentCapturesOnce(s: OrderStore, cartId: Option<string>)
    requires RetrieveStep(s, cartId).0.Ok? && RetrieveStep(s, cartId).0.value.payment_status != "captured"
    ensures var (f, s2, statuses) := DispatchSpec(s, Some(PAYMENT_CAPTURED), cartId);
            var o := RetrieveStep(s, cartId).0.value;
            s2.calls == s.calls + [RetrieveByCartId(cartId), CaptureOrder(o.id)]
            && (f.Returned? <==> !s.down && o.id in s.orders)
            && (f.Returned? ==> statuses == [200] && s2.orders[o.id].payment_status == "captured")
  {
  }

  /** No order, or one already captured: 404, and no action, so the gateway retries. */
  lemma CapturedPaymentRetriesLater(s: OrderStore, cartId: Option<string>)
    requires RetrieveStep(s, cartId).0.Thrown? || RetrieveStep(s, cartId).0.value.payment_status == "captured"
    ensures DispatchSpec(s, Some(PAYMENT_CAPTURED), cartId) == (Returned, RetrieveStep(s, cartId).1, [404])
  {
  }

  /** Any other event: 204, and the lookup is the only call. */
  lemma OtherEventIgnored(s: OrderStore, event: Option<string>, cartId: Option<string>)
    requires event != Some(PAYMENT_FAILED) && event != Some(PAYMENT_CAPTURED)
    ensures DispatchSpec(s, event, cartId) == (Returned, s.(calls := s.calls + [RetrieveByCartId(cartId)]), [204])
  {
  }
}
