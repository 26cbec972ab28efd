/**
 * How a gateway order's status becomes a payment session status.
 */
module StatusMapping {
  import opened RazorpayTypes

  /** `getRazorpayPaymentStatus`: an absent order is an error, any order is authorized. */
  function GetRazorpayPaymentStatus(order: Option<SessionData>): (r: SessionStatus)
    ensures r == Error <==> order.None?
    ensures order.Some? ==> r == Authorized
  {
    if order.None? then Error else Authorized
  }

  /** The status `getPaymentStatus` reports for a fetched order. */
  function StatusOfOrder(order: SessionData): SessionStatus {
    match order.status
    case Some("created") => RequiresMore
    case Some("paid") => Authorized
    case Some("attempted") => GetRazorpayPaymentStatus(Some(order))
    case _ => Pending
  }

  /**
   * A fetched order is never reported as an error or as canceled: it
   * requires more exactly when created, is authorized exactly when paid or
   * attempted, and is pending otherwise (an absent status included).
   */
  lemma StatusOfOrderTable(order: SessionData)
    ensures StatusOfOrder(order) == RequiresMore <==> order.status == Some("created")
    ensures StatusOfOrder(order) == Authorized <==> order.status == Some("paid") || order.status == Some("attempted")
    ensures StatusOfOrder(order) == Pending
            <==> order.status !in {Some("created"), Some("paid"), Some("attempted")}
    ensures StatusOfOrder(order) != Error && StatusOfOrder(order) != Canceled
  {
  }
}
