/**
 * The legacy webhook handler, and how it differs from the default one: it
 * reads an already parsed body, sends nothing on a refused signature, lets a
 * throwing validator escape, and correlates by `cart_id` alone.
 */
module LegacyHook {
  import opened RazorpayTypes
  import opened Webhook
  import RazorpayHook

  /** The whole request, for a body already parsed into `body`. */
  function LegacyHookSpec(s: OrderStore, body: Payload, validation: Validation): (Finish, OrderStore, seq<int>) {
    match validation
    case Threw(c) => (Rejected(c), s, [])
    case Invalid => (Returned, s, [])
    case Valid =>
      if body.notes.None? then (Rejected(TypeErrorCause), s, [])
      else DispatchSpec(s, body.event, Lookup(body.notes.value, "cart_id"))
  }

  method HandleLegacyHook(orderService: OrderService, res: Reply, body: Payload, validation: Validation)
    returns (finish: Finish)
    modifies orderService, res
    ensures var (f, s, statuses) := LegacyHookSpec(old(orderService.state), body, validation);
            finish == f && orderService.state == s && res.sent == old(res.sent) + statuses
  {
    if validation.Threw? {
      return Rejected(validation.cause);
    }
    if validation.Invalid? {
      return Returned;
    }
    if body.notes.None? {
      return Rejected(TypeErrorCause);
    }
    finish := Dispatch(orderService, res, body.event, Lookup(body.notes.value, "cart_id"));
  }

  /** A refused signature returns without a response and without calling the order service. */
  lemma RefusedSignatureIsSilent(s: OrderStore, body: Payload)
    ensures LegacyHookSpec(s, body, Invalid) == (Returned, s, [])
  {
  }

  /** At most one status is sent; the order service is called only for an accepted signature. */
  lemma AtMostOneStatus(s: OrderStore, body: Payload, validation: Validation)
    ensures var (f, s2, statuses) := LegacyHookSpec(s, body, validation);
            |statuses| <= 1 && (|statuses| == 1 ==> f.Returned? && validation.Valid?)
            && (!validation.Valid? ==> s2 == s)
            && s.calls <= s2.calls && |s2.calls| <= |s.calls| + 2
  {
    if validation.Valid? && body.notes.Some? {
      DispatchOneStatus(s, body.event, Lookup(body.notes.value, "cart_id"));
      assert s.calls <= s.calls + [RetrieveByCartId(Lookup(body.notes.value, "cart_id"))];
    }
  }

  /**
   * Notes without `cart_id` look up an undefined cart, whatever their
   * `resource_id`: a failed payment answers 200 and changes nothing, a
   * captured one answers 404.
   */
  lemma NoCartIdFindsNoOrder(s: OrderStore, event: Option<string>, notes: map<string, string>)
    requires "cart_id" !in notes
    ensures var (f, s2, statuses) := LegacyHookSpec(s, Payload(event, Some(notes)), Valid);
            s2 == s.(calls := s.calls + [RetrieveByCartId(None)]) && f == Returned
            && statuses == [if event == Some(PAYMENT_FAILED) then 200 else if event == Some(PAYMENT_CAPTURED) then 404 else 204]
  {
  }

  /** With a `cart_id` in the notes, both handlers do the same for an accepted, parseable body. */
  lemma HandlersAgreeOnCartId(s: OrderStore, p: Payload)
    requires p.notes.Some? && "cart_id" in p.notes.value
    ensures RazorpayHook.HookSpec(s, RazorpayHook.Buffer(Some(p)), Valid) == LegacyHookSpec(s, p, Valid)
    ensures RazorpayHook.HookSpec(s, RazorpayHook.Text(Some(p)), Valid) == LegacyHookSpec(s, p, Valid)
  {
  }

  /**
   * A captured payment correlated by `resource_id` alone: the default
   * handler captures the order and answers 200, the legacy one answers 404
   * and captures nothing.
   */
  lemma HandlersDifferOnResourceId(s: OrderStore, resourceId: string)
    requires var found := RetrieveStep(s, Some(resourceId)).0;
             found.Ok? && found.value.payment_status != "captured" && found.value.id in s.orders
    ensures var p := Payload(Some(PAYMENT_CAPTURED), Some(map["resource_id" := resourceId]));
            var o := RetrieveStep(s, Some(resourceId)).0.value;
            var (f1, s1, st1) := RazorpayHook.HookSpec(s, RazorpayHook.Buffer(Some(p)), Valid);
            var (f2, s2, st2) := LegacyHookSpec(s, p, Valid);
            st1 == [200] && s1.orders[o.id].payment_status == "captured"
            && st2 == [404] && s2.orders == s.orders
  {
    var notes := map["resource_id" := resourceId];
    assert RazorpayHook.CorrelationId(notes) == Some(resourceId);
    assert "cart_id" !in notes;
    CapturedPaymentCapturesOnce(s, Some(resourceId));
  }

  /** A throwing validator: the default handler answers 500, the legacy one is rejected with the validator's error. */
  lemma HandlersDifferOnThrowingValidator(s: OrderStore, p: Payload, c: Cause)
    ensures RazorpayHook.HookSpec(s, RazorpayHook.Buffer(Some(p)), Threw(c)) == (Returned, s, [500])
    ensures LegacyHookSpec(s, p, Threw(c)) == (Rejected(c), s, [])
  {
  }
}
