/** Verified webhook events, normalized to the one shape the consumer credits. */
module PaymentEvents {
  import opened Options
  import opened Money

  /** The parts of a Stripe event the adapter reads. `tenantId` is the metadata value, if any. */
  datatype StripeEvent =
    | CheckoutCompleted(id: string, paymentStatus: string, amountTotal: Option<int>,
                        paymentIntent: Option<string>, tenantId: Option<string>)
    | IntentSucceeded(id: string, amount: Option<int>, tenantId: Option<string>)
    | OtherEvent(otherId: Option<string>)

  datatype PaymentEvent = PaymentEvent(
    isPaymentSucceeded: bool, tenantId: Option<string>, amountMicros: int, paymentRef: string)

  function OrElse<T>(o: Option<T>, d: T): T { if o.Some? then o.value else d }

  /** An empty tenant id counts as none. */
  function TenantOf(tenantId: Option<string>): Option<string> {
    if tenantId.Some? && tenantId.value != "" then tenantId else None
  }

  function NormalizeEvent(e: StripeEvent): PaymentEvent {
    match e
    case CheckoutCompleted(id, status, total, intent, tenant) =>
      PaymentEvent(status == "paid", TenantOf(tenant), MicrosFromCents(OrElse(total, 0)), OrElse(intent, id))
    case IntentSucceeded(id, amount, tenant) =>
      PaymentEvent(true, TenantOf(tenant), MicrosFromCents(OrElse(amount, 0)), id)
    case OtherEvent(id) =>
      PaymentEvent(false, None, 0, OrElse(id, "unknown"))
  }

  /** A checkout and the success of its payment intent credit one and the same ledger entry
      exactly when the checkout names the intent, or happens to share its id. */
  lemma CheckoutAndIntentAgree(c: StripeEvent, i: StripeEvent)
    requires c.CheckoutCompleted? && i.IntentSucceeded?
    ensures CreditKeyForPayment(NormalizeEvent(c).paymentRef) == CreditKeyForPayment(NormalizeEvent(i).paymentRef)
      <==> (c.paymentIntent == Some(i.id) || (c.paymentIntent == None && c.id == i.id))
  {
    if CreditKeyForPayment(NormalizeEvent(c).paymentRef) == CreditKeyForPayment(NormalizeEvent(i).paymentRef) {
      CreditKeyInjective(NormalizeEvent(c).paymentRef, NormalizeEvent(i).paymentRef);
    }
  }
}
