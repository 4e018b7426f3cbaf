/** Which payment events are credited, said of the events as Stripe sends them. */
module WebhookCredits {
  import opened Options
  import opened Money
  import opened PaymentEvents
  import opened AutoChargeStore
  import opened AutoCharge

  /** The ledger after the payment `ref` of some cents has been presented for `t`: presented it is, and
      it has an entry, the one it had before or one of its own amount, added to the balance; nothing
      else has changed. */
  ghost predicate CreditedOnce(l: Ledger, n: Ledger, t: Tenant, ref: Ref, cents: int) {
    var key := "stripe:" + ref;
    && n.PresentedOf(t) == l.PresentedOf(t) + {ref}
    && (if key in l.EntriesOf(t) then n.EntriesOf(t) == l.EntriesOf(t) && n.BalanceOf(t) == l.BalanceOf(t)
        else
          && n.EntriesOf(t) == l.EntriesOf(t)[key := 10_000 * cents]
          && n.BalanceOf(t) == l.BalanceOf(t) + 10_000 * cents)
    && forall u | u != t ::
         n.PresentedOf(u) == l.PresentedOf(u) && n.EntriesOf(u) == l.EntriesOf(u) && n.BalanceOf(u) == l.BalanceOf(u)
  }

  predicate Names(tenant: Option<string>, t: Tenant) { t != "" && tenant == Some(t) }

  /** A completed checkout is credited exactly when it is paid and names a tenant: as its payment intent,
      or as itself where it has none, and at the total it states. */
  lemma PaidCheckoutIsCredited(
      l: Ledger, payments: map<Ref, Payment>,
      id: string, status: string, total: Option<int>, intent: Option<string>, tenant: Option<string>)
    ensures var n := HandleWebhook(l, payments, NormalizeEvent(CheckoutCompleted(id, status, total, intent, tenant)));
      && (forall t | status == "paid" && Names(tenant, t) ::
            CreditedOnce(l, n, t, if intent.Some? then intent.value else id, if total.Some? then total.value else 0))
      && (status != "paid" || tenant == None || tenant == Some("") ==> n == l)
  {
    if status == "paid" && tenant.Some? && tenant.value != "" {
      CreditIsOnce(l, payments, tenant.value, if intent.Some? then intent.value else id, if total.Some? then total.value else 0);
    }
  }

  /** The success of a payment intent is credited exactly when it names a tenant, at its amount. */
  lemma IntentIsCredited(l: Ledger, payments: map<Ref, Payment>, id: string, amount: Option<int>, tenant: Option<string>)
    ensures var n := HandleWebhook(l, payments, NormalizeEvent(IntentSucceeded(id, amount, tenant)));
      && (forall t | Names(tenant, t) :: CreditedOnce(l, n, t, id, if amount.Some? then amount.value else 0))
      && (tenant == None || tenant == Some("") ==> n == l)
  {
    if tenant.Some? && tenant.value != "" {
      CreditIsOnce(l, payments, tenant.value, id, if amount.Some? then amount.value else 0);
    }
  }

  /** No other event is credited. */
  lemma OtherEventsAreIgnored(l: Ledger, payments: map<Ref, Payment>, id: Option<string>)
    ensures HandleWebhook(l, payments, NormalizeEvent(OtherEvent(id))) == l
  {
  }

  lemma CreditIsOnce(l: Ledger, payments: map<Ref, Payment>, t: Tenant, ref: Ref, cents: int)
    ensures CreditedOnce(l, l.Credit(t, ref, MicrosFromCents(cents), payments), t, ref, cents)
  {
  }

  // ---- In the system ----

  /** The events a payment was made for, and the payment: what the world may deliver. */
  predicate TellsOf(e: StripeEvent, t: Tenant, ref: Ref, cents: int) {
    || (e.CheckoutCompleted? && e.paymentStatus == "paid" && Names(e.tenantId, t)
        && ref == (if e.paymentIntent.Some? then e.paymentIntent.value else e.id)
        && cents == (if e.amountTotal.Some? then e.amountTotal.value else 0))
    || (e.IntentSucceeded? && Names(e.tenantId, t) && ref == e.id
        && cents == (if e.amount.Some? then e.amount.value else 0))
  }

  /** A delivery of an event that tells of a payment made for `t` can always happen, and then that payment
      is presented and has its entry; a delivery of any other event changes nothing. */
  lemma DeliveryCreditsExactly(s: State, e: StripeEvent, t: Tenant, ref: Ref, cents: int)
    ensures TellsOf(e, t, ref, cents) && ref in s.engine.payments && s.engine.payments[ref] == Payment(t, cents) ==>
      && Enabled(s, Deliver(e))
      && CreditedOnce(s.ledger, Step(s, Deliver(e)).ledger, t, ref, cents)
      && Step(s, Deliver(e)) == s.(ledger := Step(s, Deliver(e)).ledger)
    ensures (forall u: Tenant, r: Ref, n: int :: !TellsOf(e, u, r, n)) ==> Enabled(s, Deliver(e)) && Step(s, Deliver(e)) == s
  {
    match e
    case CheckoutCompleted(id, status, total, intent, tenant) =>
      PaidCheckoutIsCredited(s.ledger, s.engine.payments, id, status, total, intent, tenant);
      if status == "paid" && tenant.Some? && tenant.value != "" {
        assert TellsOf(e, tenant.value, if intent.Some? then intent.value else id, if total.Some? then total.value else 0);
      }
    case IntentSucceeded(id, amount, tenant) =>
      IntentIsCredited(s.ledger, s.engine.payments, id, amount, tenant);
      if tenant.Some? && tenant.value != "" {
        assert TellsOf(e, tenant.value, id, if amount.Some? then amount.value else 0);
      }
    case OtherEvent(id) => OtherEventsAreIgnored(s.ledger, s.engine.payments, id);
  }
}
