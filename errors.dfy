/**
 * How the adapter turns failures into payment processor errors, and the
 * operations it does not support.
 */
module ErrorHandling {
  import opened RazorpayTypes

  /** `e.detail ?? ""` */
  function DetailText(f: Field<string>): string {
    if f.Has? && f.value.Some? then f.value.value else ""
  }

  /**
   * `buildError(message, e)`: the message becomes `error`, the cause's code
   * (or "" when it has no `code` key) becomes `code`. A processor error's
   * `error` and `detail` are joined by a line break into `detail`; any other
   * cause passes its `detail` key on, else its message, else "".
   */
  function BuildError(message: string, e: Cause): (r: ProcessorError)
    ensures r.error == message
    ensures e.code.Has? ==> r.code == e.code.value
    ensures e.code.Missing? ==> r.code == Some("")
    ensures r.detail.Has?
    ensures IsProcessorError(e) ==> r.detail == Has(Some(Show(e.error) + EOL + DetailText(e.detail)))
    ensures !IsProcessorError(e) && e.detail.Has? ==> r.detail == e.detail
    ensures !IsProcessorError(e) && e.detail.Missing? ==> r.detail == Has(Some(e.message.GetOr("")))
  {
    var code := if e.code.Has? then e.code.value else Some("");
    var detail :=
      if IsProcessorError(e) then Some(Show(e.error) + EOL + DetailText(e.detail))
      else if e.detail.Has? then e.detail.value
      else Some(e.message.GetOr(""));
    ProcessorError(message, code, Has(detail))
  }

  /**
   * Wrapping a built error again (as a failed re-initiation inside
   * `updatePayment` does) keeps its code and puts its message and detail,
   * joined by a line break, into the new detail.
   */
  lemma WrappedErrorNestsDetail(outer: string, inner: string, e: Cause)
    requires inner != ""
    ensures var first := BuildError(inner, e);
            var second := BuildError(outer, AsCause(first));
            second.error == outer && second.code == first.code
            && second.detail == Has(Some(inner + EOL + DetailText(first.detail)))
  {
  }

  /** A failure that is not a processor error and has no `detail` key reports its own message. */
  lemma PlainFailureReportsMessage(message: string, text: string, code: Option<string>)
    requires !Truthy(code)
    ensures BuildError(message, PlatformError(text, code)) == ProcessorError(message, code, Has(Some(text)))
  {
  }

  const CancelError: ProcessorError :=
    ProcessorError("Unable to cancel as razorpay doesn't support cancellation", Some(UNSUPPORTED_OPERATION), Missing)

  /** `cancelPayment`: cancellation is never supported, whatever the session. */
  function CancelPayment(session: SessionData): (r: Result<SessionData>)
    ensures r.Failure? && r.error.code == Some(UNSUPPORTED_OPERATION) && r.error.detail.Missing?
    ensures r.error.error == "Unable to cancel as razorpay doesn't support cancellation"
  {
    Failure(CancelError)
  }

  /** `deletePayment` answers what `cancelPayment` answers. */
  function DeletePayment(session: SessionData): (r: Result<SessionData>)
    ensures r == CancelPayment(session)
  {
    CancelPayment(session)
  }

  /** Neither answer depends on the session given. */
  lemma CancelIgnoresSession(a: SessionData, b: SessionData)
    ensures CancelPayment(a) == CancelPayment(b) == DeletePayment(a) == DeletePayment(b)
  {
  }
}
