/**
 * The default webhook handler: validate the signature, read the body, take
 * the cart id from the payment's notes, then run the event switch.
 */
module RazorpayHook {
  import opened RazorpayTypes
  import opened Webhook

  /**
   * `req.body` as the handler finds it. A `Buffer` (what the raw body parser
   * of the route leaves) and a `PlainObject` are objects; `Text` is a string.
   * `parsed` is what `JSON.parse` gives for the body's text, `None` when it
   * throws. A plain object's text is `"[object Object]"`, which never parses.
   */
  datatype Body = Buffer(parsed: Option<Payload>) | PlainObject | Text(parsed: Option<Payload>)

  /** The error `JSON.parse` throws on text that is not JSON. */
  const SyntaxErrorCause: Cause := Cause(None, Missing, Missing, Some("Unexpected token in JSON"))

  /** Where reading the body leaves the handler: with the data, with a status already sent, or with an error that escapes. */
  datatype Start = Proceed(data: Payload) | Answered(status: int) | Escaped(cause: Cause)

  /**
   * Validation and parsing: a throwing validator answers 500, a refused
   * signature 400; an object body that does not parse answers 500, inside the
   * `try`; a string body is parsed after the `try`, so its parse error escapes.
   */
  function ReadBody(body: Body, validation: Validation): (r: Start)
    ensures r == Answered(400) <==> validation.Invalid?
    ensures r == Answered(500) <==> validation.Threw? || (validation.Valid? && (body.PlainObject? || body == Buffer(None)))
    ensures r.Escaped? <==> validation.Valid? && body == Body.Text(None)
    ensures r.Escaped? ==> r.cause == SyntaxErrorCause
    ensures r.Proceed? <==> validation.Valid? && !body.PlainObject? && body.parsed.Some?
    ensures r.Proceed? ==> r.data == body.parsed.value
    ensures r.Answered? ==> r.status == 400 || r.status == 500
  {
    match validation
    case Threw(_) => Answered(500)
    case Invalid => Answered(400)
    case Valid =>
      match body
      case Buffer(parsed) => if parsed.Some? then Proceed(parsed.value) else Answered(500)
      case PlainObject => Answered(500)
      case Text(parsed) => if parsed.Some? then Proceed(parsed.value) else Escaped(SyntaxErrorCause)
  }

  /** The correlation id: the notes' `cart_id`, else their `resource_id`. */
  function CorrelationId(notes: map<string, string>): (r: Option<string>)
    ensures "cart_id" in notes ==> r == Some(notes["cart_id"])
    ensures "cart_id" !in notes && "resource_id" in notes ==> r == Some(notes["resource_id"])
    ensures "cart_id" !in notes && "resource_id" !in notes ==> r.None?
  {
    Coalesce(Lookup(notes, "cart_id"), Lookup(notes, "resource_id"))
  }

  /** The whole request: how the handler ends, the order service afterwards, and the statuses sent. */
  function HookSpec(s: OrderStore, body: Body, validation: Validation): (Finish, OrderStore, seq<int>) {
    match ReadBody(body, validation)
    case Answered(code) => (Returned, s, [code])
    case Escaped(c) => (Rejected(c), s, [])
    case Proceed(data) =>
      if data.notes.None? then (Rejected(TypeErrorCause), s, [])
      else DispatchSpec(s, data.event, CorrelationId(data.notes.value))
  }

  /** The handler; the validator's verdict on the body and signature is given. */
  method HandleHook(orderService: OrderService, res: Reply, body: Body, validation: Validation)
    returns (finish: Finish)
    modifies orderService, res
    ensures var (f, s, statuses) := HookSpec(old(orderService.state), body, validation);
            finish == f && orderService.state == s && res.sent == old(res.sent) + statuses
  {
    var data: Payload;
    if body.Buffer? || body.PlainObject? {
      if validation.Threw? {
        res.SendStatus(500);
        return Returned;
      }
      if validation.Invalid? {
        res.SendStatus(400);
        return Returned;
      }
      if body.PlainObject? || body.parsed.None? {
        res.SendStatus(500);
        return Returned;
      }
      data := body.parsed.value;
    } else {
      if validation.Threw? {
        res.SendStatus(500);
        return Returned;
      }
      if validation.Invalid? {
        res.SendStatus(400);
        return Returned;
      }
      if body.parsed.None? {
        return Rejected(SyntaxErrorCause);
      }
      data := body.parsed.value;
    }
    if data.notes.None? {
      return Rejected(TypeErrorCause);
    }
    finish := Dispatch(orderService, res, data.event, CorrelationId(data.notes.value));
  }

  /** A refused signature answers 400, and the order service is not called. */
  lemma RefusedSignatureAnswers400(s: OrderStore, body: Body)
    ensures HookSpec(s, body, Invalid) == (Returned, s, [400])
  {
  }

  /** A validator that throws answers 500, and the order service is not called. */
  lemma ThrowingValidatorAnswers500(s: OrderStore, body: Body, c: Cause)
    ensures HookSpec(s, body, Threw(c)) == (Returned, s, [500])
  {
  }

  /** An already parsed object body passes validation but never parses again: 500, before any order is looked up. */
  lemma ParsedObjectAnswers500(s: OrderStore, validation: Validation)
    ensures HookSpec(s, PlainObject, validation).2 == [if validation.Invalid? then 400 else 500]
    ensures HookSpec(s, PlainObject, validation).1 == s
  {
  }

  /**
   * Each request gets exactly one status unless it is rejected, and then
   * none; the order service sees at most the lookup and one action, and
   * nothing at all unless the signature was accepted.
   */
  lemma OneStatusPerRequest(s: OrderStore, body: Body, validation: Validation)
    ensures var (f, s2, statuses) := HookSpec(s, body, validation);
            (|statuses| == 1 <==> f.Returned?) && (f.Rejected? ==> statuses == [])
            && s.calls <= s2.calls && |s2.calls| <= |s.calls| + 2
            && (!validation.Valid? ==> s2 == s)
  {
    var start := ReadBody(body, validation);
    if start.Proceed? && start.data.notes.Some? {
      DispatchOneStatus(s, start.data.event, CorrelationId(start.data.notes.value));
      assert s.calls <= s.calls + [RetrieveByCartId(CorrelationId(start.data.notes.value))];
    }
  }

  /** A verified body that parses and names its notes reaches the event switch with the notes' correlation id. */
  lemma ParsedBodyDispatches(s: OrderStore, body: Body)
    requires (body.Buffer? || body.Text?) && body.parsed.Some? && body.parsed.value.notes.Some?
    ensures HookSpec(s, body, Valid)
            == DispatchSpec(s, body.parsed.value.event, CorrelationId(body.parsed.value.notes.value))
  {
  }
}
