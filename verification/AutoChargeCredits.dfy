/** Every payment is credited exactly once, by whichever path presents it first. */
module AutoChargeCredits {
  import opened Options
  import opened KeyedMutex
  import opened Money
  import opened PaymentEvents
  import opened AutoChargeStore
  import opened AutoCharge

  // ---- Totals ----

  ghost function Total(m: map<string, int>): int
    decreases |m|
  {
    if m == map[] then 0
    else
      var k :| k in m;
      m[k] + Total(m - {k})
  }

  lemma {:induction false} TotalAny(m: map<string, int>, k: string)
    requires k in m
    ensures Total(m) == m[k] + Total(m - {k})
    decreases |m|
  {
    var h :| h in m && Total(m) == m[h] + Total(m - {h});
    if h != k {
      TotalAny(m - {h}, k);
      TotalAny(m - {k}, h);
      assert m - {h} - {k} == m - {k} - {h};
    }
  }

  lemma TotalAdds(m: map<string, int>, k: string, v: int)
    requires k !in m
    ensures Total(m[k := v]) == Total(m) + v
  {
    TotalAny(m[k := v], k);
    assert m[k := v] - {k} == m;
  }

  // ---- Sums over payments ----

  ghost function SumOver(ps: set<Ref>, f: Ref -> int): int
    decreases |ps|
  {
    if ps == {} then 0
    else
      var p :| p in ps;
      f(p) + SumOver(ps - {p}, f)
  }

  lemma {:induction false} SumAny(ps: set<Ref>, f: Ref -> int, p: Ref)
    requires p in ps
    ensures SumOver(ps, f) == f(p) + SumOver(ps - {p}, f)
    decreases |ps|
  {
    var q :| q in ps && SumOver(ps, f) == f(q) + SumOver(ps - {q}, f);
    if q != p {
      SumAny(ps - {q}, f, p);
      SumAny(ps - {p}, f, q);
      assert ps - {q} - {p} == ps - {p} - {q};
    }
  }

  /** Where `f` is `g` plus `h`, and `h` is zero but on some of the payments, so are the sums. */
  lemma {:induction false} SumSplits(ps: set<Ref>, qs: set<Ref>, f: Ref -> int, g: Ref -> int, h: Ref -> int)
    requires qs <= ps && forall p | p in ps :: f(p) == g(p) + if p in qs then h(p) else 0
    ensures SumOver(ps, f) == SumOver(ps, g) + SumOver(qs, h)
    decreases |ps|
  {
    if ps != {} {
      var p :| p in ps;
      SumAny(ps, f, p);
      SumAny(ps, g, p);
      if p in qs { SumAny(qs, h, p); } else { assert qs - {p} == qs; }
      SumSplits(ps - {p}, qs - {p}, f, g, h);
    }
  }

  /** The entries of some payments, and no others, add up to the sum over those payments. */
  lemma {:induction false} TotalIsSum(m: map<string, int>, ps: set<Ref>, f: Ref -> int)
    requires forall k | k in m :: exists p :: p in ps && k == CreditKeyForPayment(p)
    requires forall p | p in ps :: CreditKeyForPayment(p) in m && m[CreditKeyForPayment(p)] == f(p)
    ensures Total(m) == SumOver(ps, f)
    decreases |ps|
  {
    if ps == {} {
      assert m.Keys == {};
    } else {
      var p :| p in ps;
      var k := CreditKeyForPayment(p);
      SumAny(ps, f, p);
      TotalAny(m, k);
      forall q | q in ps - {p} ensures CreditKeyForPayment(q) != k {
        if CreditKeyForPayment(q) == k { CreditKeyInjective(p, q); }
      }
      forall h | h in m - {k} ensures exists q :: q in ps - {p} && h == CreditKeyForPayment(q) {
        var q :| q in ps && h == CreditKeyForPayment(q);
      }
      TotalIsSum(m - {k}, ps - {p}, f);
    }
  }

  // ---- The ledger ----

  /** The entry of a presented payment; it is mispriced exactly when it is not the payment's own. */
  ghost predicate Entered(l: Ledger, payments: map<Ref, Payment>, t: Tenant, p: Ref) {
    && p in payments && CreditKeyForPayment(p) in l.EntriesOf(t)
    && ((t, p) in l.mispriced <==> !Costs(payments, p, t, l.EntriesOf(t)[CreditKeyForPayment(p)]))
  }

  /** One entry per presented payment, and nothing else, adding up to the balance. */
  ghost predicate TenantBooked(l: Ledger, payments: map<Ref, Payment>, t: Tenant) {
    && (forall p | p in l.PresentedOf(t) :: Entered(l, payments, t, p))
    && (forall k | k in l.EntriesOf(t) :: exists p :: p in l.PresentedOf(t) && k == CreditKeyForPayment(p))
    && (forall p | (t, p) in l.mispriced :: p in l.PresentedOf(t))
    && l.BalanceOf(t) == Total(l.EntriesOf(t))
  }

  lemma CreditBooks(l: Ledger, t: Tenant, ref: Ref, amount: int, payments: map<Ref, Payment>, u: Tenant)
    requires TenantBooked(l, payments, u) && ref in payments
    ensures TenantBooked(l.Credit(t, ref, amount, payments), payments, u)
  {
    var n := l.Credit(t, ref, amount, payments);
    forall p | p in n.PresentedOf(u) ensures Entered(n, payments, u, p) { EntryKept(l, t, ref, amount, payments, u, p); }
    CreditOwned(l, t, ref, amount, payments, u);
    CreditTotals(l, t, ref, amount, payments, u);
  }

  lemma CreditOwned(l: Ledger, t: Tenant, ref: Ref, amount: int, payments: map<Ref, Payment>, u: Tenant)
    requires TenantBooked(l, payments, u)
    ensures var n := l.Credit(t, ref, amount, payments);
      && (forall k | k in n.EntriesOf(u) :: exists p :: p in n.PresentedOf(u) && k == CreditKeyForPayment(p))
      && (forall p | (u, p) in n.mispriced :: p in n.PresentedOf(u))
  {
    var n := l.Credit(t, ref, amount, payments);
    assert u == t ==> ref in n.PresentedOf(u);
    forall k | k in n.EntriesOf(u) ensures exists p :: p in n.PresentedOf(u) && k == CreditKeyForPayment(p) {
      if k in l.EntriesOf(u) {
        var p :| p in l.PresentedOf(u) && k == CreditKeyForPayment(p);
        assert p in n.PresentedOf(u);
      }
    }
  }

  lemma CreditTotals(l: Ledger, t: Tenant, ref: Ref, amount: int, payments: map<Ref, Payment>, u: Tenant)
    requires l.BalanceOf(u) == Total(l.EntriesOf(u))
    ensures var n := l.Credit(t, ref, amount, payments); n.BalanceOf(u) == Total(n.EntriesOf(u))
  {
    var key := CreditKeyForPayment(ref);
    if u == t && key !in l.EntriesOf(t) { TotalAdds(l.EntriesOf(t), key, amount); }
  }

  lemma EntryKept(l: Ledger, t: Tenant, ref: Ref, amount: int, payments: map<Ref, Payment>, u: Tenant, p: Ref)
    requires TenantBooked(l, payments, u) && ref in payments
    requires p in l.Credit(t, ref, amount, payments).PresentedOf(u)
    ensures Entered(l.Credit(t, ref, amount, payments), payments, u, p)
  {
    var key := CreditKeyForPayment(ref);
    if p in l.PresentedOf(u) {
      assert Entered(l, payments, u, p);
      if CreditKeyForPayment(p) == key { CreditKeyInjective(p, ref); }
    } else if key in l.EntriesOf(t) {
      var q :| q in l.PresentedOf(t) && key == CreditKeyForPayment(q);
      CreditKeyInjective(ref, q);
    }
  }

  lemma MorePayments(l: Ledger, payments: map<Ref, Payment>, payments': map<Ref, Payment>, t: Tenant)
    requires TenantBooked(l, payments, t)
    requires forall p | p in payments :: p in payments' && payments'[p] == payments[p]
    ensures TenantBooked(l, payments', t)
  {
    forall p | p in l.PresentedOf(t) ensures Entered(l, payments', t, p) { assert Entered(l, payments, t, p); }
  }

  // ---- The payments the runs work with ----

  predicate HasPayment(pc: Pc) { pc.Paid? || pc.Crediting? || pc.Recording? }

  /** A run's payment exists, and one it made itself is its tenant's, at the amount it works with. */
  ghost predicate RunPaid(run: Run, payments: map<Ref, Payment>) {
    HasPayment(run.pc) ==>
      && run.pc.ref in payments
      && (run.pc.isNew ==> Costs(payments, run.pc.ref, run.tenant, run.pc.cfg.amount))
  }

  ghost predicate PaymentsOk(s: State) {
    && (forall k | k in s.engine.charges :: s.engine.charges[k] in s.engine.payments)
    && (forall c | 0 <= c < |s.runs| :: RunPaid(s.runs[c], s.engine.payments))
  }

  /** A new payment of a whole number of cents costs that amount. */
  lemma NewPaymentCosts(t: Tenant, amount: int, payments: map<Ref, Payment>, ref: Ref)
    requires CentsFromMicros(amount).Ok?
    ensures Costs(payments[ref := Payment(t, amount / MICROS_PER_CENT)], ref, t, amount)
  {
    CentsRoundTrip(amount, 0);
  }

  lemma StepPays(s: State, e: BillingEvent)
    requires PaymentsOk(s) && Enabled(s, e)
    ensures PaymentsOk(Step(s, e))
    ensures forall p | p in s.engine.payments ::
      p in Step(s, e).engine.payments && Step(s, e).engine.payments[p] == s.engine.payments[p]
  {
    var n := Step(s, e);
    if e.Resumes? {
      var run := s.runs[e.c];
      assert RunPaid(run, s.engine.payments);
      if run.pc.MonthOk? && NewPayment(e.io).Some? {
        NewPaymentCosts(run.tenant, run.pc.cfg.amount, s.engine.payments, NewPayment(e.io).value);
      }
    }
    forall c | 0 <= c < |n.runs| ensures RunPaid(n.runs[c], n.engine.payments) {
      if c < |s.runs| { assert RunPaid(s.runs[c], s.engine.payments); }
    }
  }

  lemma StepBooks(s: State, e: BillingEvent, t: Tenant)
    requires TenantBooked(s.ledger, s.engine.payments, t) && PaymentsOk(s) && Enabled(s, e)
    ensures var n := Step(s, e); TenantBooked(n.ledger, n.engine.payments, t)
  {
    StepPays(s, e);
    match e {
      case Resumes(c, io) =>
        var run := s.runs[c];
        assert RunPaid(run, s.engine.payments);
        if run.pc.Crediting? { CreditBooks(s.ledger, run.tenant, run.pc.ref, run.pc.cfg.amount, s.engine.payments, t); }
        MorePayments(Booking(s, run, io), s.engine.payments, Charging(s, run, io).payments, t);
      case Checkout(ref, payment) =>
        MorePayments(s.ledger, s.engine.payments, s.engine.payments[ref := payment], t);
      case Deliver(ev) =>
        var pe := NormalizeEvent(ev);
        if pe.isPaymentSucceeded && pe.tenantId.Some? {
          CreditBooks(s.ledger, pe.tenantId.value, pe.paymentRef, pe.amountMicros, s.engine.payments, t);
        }
      case _ =>
    }
  }

  /** After any run, each payment presented for a tenant has one entry, whichever path presented it
      first, and there are no others; an entry is mispriced exactly when it is not the payment's own
      amount and tenant; and the balance is the total of the entries. */
  lemma {:induction false} EveryPaymentBookedOnce(limit: nat, configs: map<Tenant, Config>, es: seq<BillingEvent>, t: Tenant)
    ensures var s := After(Init(limit, configs), es); TenantBooked(s.ledger, s.engine.payments, t) && PaymentsOk(s)
    decreases |es|
  {
    if es != [] {
      EveryPaymentBookedOnce(limit, configs, es[..|es| - 1], t);
      var s := After(Init(limit, configs), es[..|es| - 1]);
      if Enabled(s, es[|es| - 1]) {
        StepBooks(s, es[|es| - 1], t);
        StepPays(s, es[|es| - 1]);
      }
    }
  }

  // ---- The balance ----

  function Price(payments: map<Ref, Payment>): Ref -> int {
    p => if p in payments then MicrosFromCents(payments[p].cents) else 0
  }

  function Booked(entries: map<string, int>): Ref -> int {
    p => if CreditKeyForPayment(p) in entries then entries[CreditKeyForPayment(p)] else 0
  }

  function Surplus(entries: map<string, int>, payments: map<Ref, Payment>): Ref -> int {
    p => Booked(entries)(p) - Price(payments)(p)
  }

  ghost function MispricedOf(l: Ledger, t: Tenant): set<Ref> {
    set p | p in l.PresentedOf(t) && (t, p) in l.mispriced
  }

  /** After any run of crossings, patches, webhooks and redeliveries, in any order, a tenant's balance
      is the sum of the distinct payments presented for it, but for the surplus of mispriced ones. */
  lemma BalanceIsOwed(limit: nat, configs: map<Tenant, Config>, es: seq<BillingEvent>, t: Tenant)
    ensures var s := After(Init(limit, configs), es);
      var l, payments := s.ledger, s.engine.payments;
      && l.BalanceOf(t) == SumOver(l.PresentedOf(t), Price(payments))
                         + SumOver(MispricedOf(l, t), Surplus(l.EntriesOf(t), payments))
      && (MispricedOf(l, t) == {} ==> l.BalanceOf(t) == SumOver(l.PresentedOf(t), Price(payments)))
  {
    EveryPaymentBookedOnce(limit, configs, es, t);
    var s := After(Init(limit, configs), es);
    LedgerIsOwed(s.ledger, s.engine.payments, t);
  }

  lemma LedgerIsOwed(l: Ledger, payments: map<Ref, Payment>, t: Tenant)
    requires TenantBooked(l, payments, t)
    ensures l.BalanceOf(t) == SumOver(l.PresentedOf(t), Price(payments))
                            + SumOver(MispricedOf(l, t), Surplus(l.EntriesOf(t), payments))
  {
    var ps, m := l.PresentedOf(t), l.EntriesOf(t);
    forall p | p in ps
      ensures CreditKeyForPayment(p) in m && m[CreditKeyForPayment(p)] == Booked(m)(p)
      ensures Booked(m)(p) == Price(payments)(p) + if p in MispricedOf(l, t) then Surplus(m, payments)(p) else 0
    {
      assert Entered(l, payments, t, p);
    }
    TotalIsSum(m, ps, Booked(m));
    SumSplits(ps, MispricedOf(l, t), Booked(m), Price(payments), Surplus(m, payments));
  }

  // ---- When a payment is mispriced ----

  /** A run of tenant `t` lands the first credit of a payment it did not make, and that is not the
      tenant's at the amount the run works with. */
  predicate Misprices(s: State, e: BillingEvent, t: Tenant, ref: Ref)
    requires Enabled(s, e)
  {
    && e.Resumes? && s.runs[e.c].tenant == t
    && var pc := s.runs[e.c].pc;
    && pc.Crediting? && pc.ref == ref && !pc.isNew && !Costs(s.engine.payments, ref, t, pc.cfg.amount)
    && (e.io.Credited? || e.io == CreditThrew(true)) && CreditKeyForPayment(ref) !in s.ledger.EntriesOf(t)
  }

  /** No other step misprices: neither a webhook, nor a run crediting its own payment. */
  lemma StepMisprices(s: State, e: BillingEvent, t: Tenant, ref: Ref)
    requires PaymentsOk(s) && Enabled(s, e)
    ensures (t, ref) in Step(s, e).ledger.mispriced <==> (t, ref) in s.ledger.mispriced || Misprices(s, e, t, ref)
  {
    if e.Resumes? { assert RunPaid(s.runs[e.c], s.engine.payments); }
  }

  ghost predicate MispricesAt(s0: State, es: seq<BillingEvent>, i: int, t: Tenant, ref: Ref) {
    && 0 <= i < |es|
    && Enabled(After(s0, es[..i]), es[i]) && Misprices(After(s0, es[..i]), es[i], t, ref)
  }

  /** Over a run, an entry of a tenant is mispriced exactly when at some step one of the tenant's runs
      credited, first, a replayed payment that was not the tenant's at the amount by then configured. */
  lemma {:induction false} MispricedExactly(
      limit: nat, configs: map<Tenant, Config>, es: seq<BillingEvent>, t: Tenant, ref: Ref)
    ensures (t, ref) in After(Init(limit, configs), es).ledger.mispriced
      <==> exists i :: MispricesAt(Init(limit, configs), es, i, t, ref)
    decreases |es|
  {
    var s0 := Init(limit, configs);
    if es != [] {
      var n := |es| - 1;
      MispricedExactly(limit, configs, es[..n], t, ref);
      EveryPaymentBookedOnce(limit, configs, es[..n], t);
      var s := After(s0, es[..n]);
      if Enabled(s, es[n]) { StepMisprices(s, es[n], t, ref); }
      forall i | 0 <= i < n ensures MispricesAt(s0, es, i, t, ref) <==> MispricesAt(s0, es[..n], i, t, ref) {
        assert es[..n][..i] == es[..i];
      }
      if i :| MispricesAt(s0, es[..n], i, t, ref) { assert MispricesAt(s0, es, i, t, ref); }
      if MispricesAt(s0, es, n, t, ref) { assert Misprices(s, es[n], t, ref); }
    }
  }

  // ---- When none is ----

  /** The events neither patch `t`'s amount nor use a crossing id for `t` and for another tenant:
      `mine` are the ids of `t`. Anything may happen to the other tenants. */
  predicate Plain(e: BillingEvent, t: Tenant, mine: string -> bool) {
    match e
    case Update(u, p) => u == t ==> p.amount == None
    case Crossing(u, _, id) => u == t <==> mine(id)
    case _ => true
  }

  /** A run of `t`, and no other, has one of its ids, works with its amount, and with a payment of it. */
  ghost predicate RunSteady(run: Run, payments: map<Ref, Payment>, t: Tenant, mine: string -> bool, amount: int) {
    && (run.tenant == t <==> mine(run.entryId))
    && (run.tenant == t && (run.pc.Checked? || run.pc.DayOk? || run.pc.MonthOk? || HasPayment(run.pc)) ==>
          run.pc.cfg.amount == amount)
    && (run.tenant == t && HasPayment(run.pc) ==> Costs(payments, run.pc.ref, t, amount))
  }

  function AmountOf(config: Option<Config>): int { if config.Some? then config.value.amount else 0 }

  /** `t`'s amount stays what it was, and so does the payment one of its crossing ids stands for. */
  ghost predicate Steady(s: State, t: Tenant, mine: string -> bool, amount: int) {
    && amount == AmountOf(s.AccountOf(t).config)
    && (forall c | 0 <= c < |s.runs| :: RunSteady(s.runs[c], s.engine.payments, t, mine, amount))
    && (forall id: string | mine(id) && ChargeKey(id) in s.engine.charges ::
          Costs(s.engine.payments, s.engine.charges[ChargeKey(id)], t, amount))
    && (forall p :: (t, p) !in s.ledger.mispriced)
  }

  lemma SteadyPayments(s: State, e: BillingEvent, t: Tenant, mine: string -> bool, amount: int)
    requires PaymentsOk(s) && Steady(s, t, mine, amount) && Enabled(s, e)
    ensures var n := Step(s, e);
      && (forall id: string | mine(id) && ChargeKey(id) in n.engine.charges ::
            Costs(n.engine.payments, n.engine.charges[ChargeKey(id)], t, amount))
      && (forall p :: (t, p) !in n.ledger.mispriced)
  {
    StepPays(s, e);
    var n := Step(s, e);
    if e.Resumes? {
      var run := s.runs[e.c];
      assert RunSteady(run, s.engine.payments, t, mine, amount);
      if run.pc.MonthOk? && NewPayment(e.io).Some? {
        NewPaymentCosts(run.tenant, run.pc.cfg.amount, s.engine.payments, NewPayment(e.io).value);
      }
      forall id: string | mine(id) && ChargeKey(id) in n.engine.charges
        ensures Costs(n.engine.payments, n.engine.charges[ChargeKey(id)], t, amount)
      {
        assert ChargeKey(id)[11..] == id && ChargeKey(run.entryId)[11..] == run.entryId;
      }
    }
    forall p ensures (t, p) !in n.ledger.mispriced { StepMisprices(s, e, t, p); }
  }

  lemma SteadyRun(s: State, e: BillingEvent, t: Tenant, mine: string -> bool, amount: int, c: CallId)
    requires PaymentsOk(s) && Steady(s, t, mine, amount) && Enabled(s, e) && Plain(e, t, mine)
    requires c < |Step(s, e).runs|
    ensures RunSteady(Step(s, e).runs[c], Step(s, e).engine.payments, t, mine, amount)
  {
    StepPays(s, e);
    if c < |s.runs| {
      var run := s.runs[c];
      assert RunSteady(run, s.engine.payments, t, mine, amount);
      if e.Resumes? && e.c == c && run.pc.MonthOk? && NewPayment(e.io).Some? {
        NewPaymentCosts(run.tenant, run.pc.cfg.amount, s.engine.payments, NewPayment(e.io).value);
      }
    }
  }

  lemma StepSteady(s: State, e: BillingEvent, t: Tenant, mine: string -> bool, amount: int)
    requires PaymentsOk(s) && Steady(s, t, mine, amount) && Enabled(s, e) && Plain(e, t, mine)
    ensures Steady(Step(s, e), t, mine, amount)
  {
    SteadyPayments(s, e, t, mine, amount);
    var n := Step(s, e);
    forall c | 0 <= c < |n.runs| ensures RunSteady(n.runs[c], n.engine.payments, t, mine, amount) {
      SteadyRun(s, e, t, mine, amount, c);
    }
  }

  /** A tenant whose own amount is not patched, and whose crossing ids are its own, never has a
      mispriced payment, whatever is patched for others: its balance is the sum of the distinct
      payments presented for it. */
  lemma {:induction false} PlainTenantIsNeverMispriced(
      limit: nat, configs: map<Tenant, Config>, es: seq<BillingEvent>, t: Tenant, mine: string -> bool)
    requires forall i | 0 <= i < |es| :: Plain(es[i], t, mine)
    ensures var s := After(Init(limit, configs), es);
      && Steady(s, t, mine, if t in configs then configs[t].amount else 0)
      && MispricedOf(s.ledger, t) == {}
      && s.ledger.BalanceOf(t) == SumOver(s.ledger.PresentedOf(t), Price(s.engine.payments))
    decreases |es|
  {
    if es != [] {
      PlainTenantIsNeverMispriced(limit, configs, es[..|es| - 1], t, mine);
      EveryPaymentBookedOnce(limit, configs, es[..|es| - 1], t);
      var s := After(Init(limit, configs), es[..|es| - 1]);
      if Enabled(s, es[|es| - 1]) {
        StepSteady(s, es[|es| - 1], t, mine, if t in configs then configs[t].amount else 0);
      }
    }
    BalanceIsOwed(limit, configs, es, t);
  }
}
