/** The auto-charge engine as a state machine. `runLowBalance` is cut at its awaits; between two
    cuts anything else may happen: other tenants' runs, config patches, payment webhooks. */
module AutoCharge {
  import opened Options
  import opened KeyedMutex
  import opened Money
  import opened PaymentEvents
  import opened AutoChargeStore

  type Ref = string

  datatype Outcome =
    | ChargedAmount(amount: int)
    | SkippedDisabled | SkippedAboveThreshold | SkippedDailyCap | SkippedMonthlyCap
    | Failed(failures: int) | AutoDisabled(failures: int)
    | Threw

  /** Where a run stands: what it has read so far, and which await comes next. `isNew` tells a
      payment this run made from one the engine replayed. */
  datatype Pc =
    | Begin
    | Checked(cfg: Config)
    | DayOk(cfg: Config, now: int)
    | MonthOk(cfg: Config, now: int)
    | Declined
    | Counted(n: int)
    | Disabling(n: int)
    | Notifying(n: int)
    | Paid(cfg: Config, now: int, ref: Ref, isNew: bool)
    | Crediting(cfg: Config, now: int, ref: Ref, isNew: bool)
    | Recording(cfg: Config, now: int, ref: Ref, isNew: bool)
    | Done(outcome: Outcome)

  /** What the world answers at an await. A credit that throws may still have landed; and a charge
      answered with `ok: false` may still have been `took`: its reply was lost, or it succeeds later. */
  datatype Io =
    | Quiet
    | Clock(now: int)
    | Declines(took: Option<Ref>)
    | Pays(ref: Ref, isNew: bool)
    | Credited(applied: bool)
    | CreditThrew(landed: bool)
    | Notified(ok: bool)

  /** History of the card: all charges put on it, the one whose run is still to log it, those whose
      run will not log them, and the logged charges that replayed an earlier payment. */
  datatype Card = Card(charged: seq<Charge>, pending: seq<Charge>, missed: seq<Charge>, replayed: seq<Charge>) {
    function Made(made: seq<Charge>): Card { this.(charged := charged + made, pending := made) }
    function Taken(c: Charge): Card { this.(charged := charged + [c], missed := missed + [c]) }
    function Ended(): Card { this.(pending := [], missed := missed + pending) }
    function Logged(c: Charge, isNew: bool): Card {
      this.(pending := [], replayed := if isNew then replayed else replayed + [c])
    }
  }

  /** One tenant's store records, and the history of its runs: failed charges since the last
      success, re-enablings since then, and the card. */
  datatype Account = Account(
    config: Option<Config>, log: seq<Charge>, failures: int, streak: nat, enables: nat, card: Card)

  function Fresh(config: Option<Config>): Account {
    Account(config, [], 0, 0, 0, Card([], [], [], []))
  }

  predicate Answers(pc: Pc, io: Io) {
    match pc
    case Checked(_) => io.Clock?
    case MonthOk(cfg, _) =>
      (io.Declines? && io.took == None) || ((io.Declines? || io.Pays?) && CentsFromMicros(cfg.amount).Ok?)
    case Notifying(_) => io.Notified?
    case Crediting(_, _, _, _) => io.Credited? || io.CreditThrew?
    case Done(_) => false
    case _ => io.Quiet?
  }

  /** One stretch of `runLowBalance`. */
  function Advance(limit: nat, balance: int, a: Account, pc: Pc, io: Io): (Account, Pc)
    requires Answers(pc, io)
  {
    match pc
    case Begin =>
      (a, if a.config.None? || !a.config.value.enabled then Done(SkippedDisabled)
          else if balance >= a.config.value.threshold then Done(SkippedAboveThreshold)
          else Checked(a.config.value))
    case Checked(cfg) =>
      (a, if SumSince(a.log, io.now - DAY_MS) + cfg.amount > cfg.dailyCap then Done(SkippedDailyCap)
          else DayOk(cfg, io.now))
    case DayOk(cfg, now) =>
      (a, if SumSince(a.log, now - MONTH_MS) + cfg.amount > cfg.monthlyCap then Done(SkippedMonthlyCap)
          else MonthOk(cfg, now))
    case MonthOk(cfg, now) =>
      if io.Declines? then
        (a.(streak := a.streak + 1,
            card := if io.took.Some? then a.card.Taken(Charge(cfg.amount, now)) else a.card), Declined)
      else
        var made := if io.isNew then [Charge(cfg.amount, now)] else [];
        (a.(streak := 0, enables := 0, card := a.card.Made(made)), Paid(cfg, now, io.ref, io.isNew))
    case Declined => (a, Counted(a.failures + 1))
    case Counted(n) => (a.(failures := n), if n >= limit then Disabling(n) else Done(Failed(n)))
    case Disabling(n) => (a.(config := Disabled(a.config)), Notifying(n))
    case Notifying(n) => (a, Done(if io.ok then AutoDisabled(n) else Threw))
    case Paid(cfg, now, ref, isNew) => (a.(failures := 0), Crediting(cfg, now, ref, isNew))
    case Crediting(cfg, now, ref, isNew) =>
      if io == Credited(true) then (a, Recording(cfg, now, ref, isNew))
      else
        (a.(card := a.card.Ended()),
         Done(if io.Credited? then ChargedAmount(cfg.amount) else Threw))
    case Recording(cfg, now, ref, isNew) =>
      var c := Charge(cfg.amount, now);
      (a.(log := a.log + [c], card := a.card.Logged(c, isNew)), Done(ChargedAmount(cfg.amount)))
  }

  function PatchedAccount(a: Account, p: Patch): Account {
    a.(config := Some(Patched(a.config, p)),
       enables := if p.enabled == Some(true) then a.enables + 1 else a.enables)
  }

  // ---- The payment engine and the ledger, by their contracts ----

  datatype Payment = Payment(tenant: Tenant, cents: int)

  /** `charges` remembers the payment made for each idempotency key; a repeated key gets that
      payment back. `payments` holds every payment, made here or at a checkout. */
  datatype Engine = Engine(charges: map<string, Ref>, payments: map<Ref, Payment>)

  /** The payment is tenant `t`'s, of this amount. */
  predicate Costs(payments: map<Ref, Payment>, ref: Ref, t: Tenant, amount: int) {
    ref in payments && payments[ref].tenant == t && MicrosFromCents(payments[ref].cents) == amount
  }

  /** Per tenant: the entries by idempotency key and the balance. History: the payments presented
      for credit, and those whose entry was made at another price, or for another tenant, than
      their own. */
  datatype Ledger = Ledger(
    entries: map<Tenant, map<string, int>>, balance: map<Tenant, int>,
    presented: map<Tenant, set<Ref>>, mispriced: set<(Tenant, Ref)>)
  {
    function EntriesOf(t: Tenant): map<string, int> { if t in entries then entries[t] else map[] }
    function BalanceOf(t: Tenant): int { if t in balance then balance[t] else 0 }
    function PresentedOf(t: Tenant): set<Ref> { if t in presented then presented[t] else {} }

    /** `credit`: a key seen before leaves the balance alone. */
    function Credit(t: Tenant, ref: Ref, amount: int, payments: map<Ref, Payment>): Ledger {
      var key := CreditKeyForPayment(ref);
      var l := this.(presented := presented[t := PresentedOf(t) + {ref}]);
      if key in EntriesOf(t) then l
      else
        l.(entries := entries[t := EntriesOf(t)[key := amount]],
           balance := balance[t := BalanceOf(t) + amount],
           mispriced := if Costs(payments, ref, t, amount) then mispriced else mispriced + {(t, ref)})
    }
  }

  // ---- The whole system ----

  datatype Run = Run(tenant: Tenant, balance: int, entryId: string, pc: Pc)

  /** `runs[c]` is the function call `c` of the mutex guards. `active` is history: the running
      call of each tenant that has one. */
  datatype State = State(
    limit: nat, mutex: Mutex, runs: seq<Run>, active: map<Tenant, CallId>,
    accounts: map<Tenant, Account>, engine: Engine, ledger: Ledger)
  {
    function AccountOf(t: Tenant): Account { if t in accounts then accounts[t] else Fresh(None) }
  }

  function Init(limit: nat, configs: map<Tenant, Config>): State {
    State(limit, Unlocked(), [], map[], map t | t in configs :: Fresh(Some(configs[t])),
          Engine(map[], map[]), Ledger(map[], map[], map[], {}))
  }

  function ChargeKey(entryId: string): string { "autocharge:" + entryId }

  datatype BillingEvent =
    | Crossing(t: Tenant, balance: int, entryId: string)
    | Begins(c: CallId)
    | Resumes(c: CallId, io: Io)
    | Finishes(c: CallId)
    | Update(t: Tenant, p: Patch)
    | Checkout(ref: Ref, payment: Payment)
    | Deliver(e: StripeEvent)

  /** The contract of the world: the engine pays once per key, the ledger applies once per key,
      and a webhook reports a payment as it is. */
  predicate Admissible(s: State, c: CallId, io: Io)
    requires c < |s.runs|
  {
    var run := s.runs[c];
    && Answers(run.pc, io)
    && (io.Pays? ==>
          if ChargeKey(run.entryId) in s.engine.charges then !io.isNew && io.ref == s.engine.charges[ChargeKey(run.entryId)]
          else io.isNew && io.ref !in s.engine.payments)
    && (io.Declines? && io.took.Some? ==>
          ChargeKey(run.entryId) !in s.engine.charges && io.took.value !in s.engine.payments)
    && (io.Credited? ==>
          run.pc.Crediting? && (io.applied <==> CreditKeyForPayment(run.pc.ref) !in s.ledger.EntriesOf(run.tenant)))
  }

  /** The payment an event tells of, if any, was made, for that tenant and that many cents. */
  predicate Reports(engine: Engine, e: StripeEvent) {
    match e
    case CheckoutCompleted(id, status, total, intent, tenant) =>
      var ref := if intent.Some? then intent.value else id;
      status == "paid" && tenant.Some? && tenant.value != "" ==> Made(engine, ref, tenant.value, total)
    case IntentSucceeded(id, amount, tenant) =>
      tenant.Some? && tenant.value != "" ==> Made(engine, id, tenant.value, amount)
    case OtherEvent(_) => true
  }

  predicate Made(engine: Engine, ref: Ref, t: Tenant, cents: Option<int>) {
    ref in engine.payments && engine.payments[ref] == Payment(t, if cents.Some? then cents.value else 0)
  }

  predicate Enabled(s: State, e: BillingEvent) {
    match e
    case Begins(c) => s.mutex.CanStart(c)
    case Resumes(c, io) =>
      c < |s.runs| && c < |s.mutex.calls| && s.mutex.calls[c].phase == Running && Admissible(s, c, io)
    case Finishes(c) => c < |s.mutex.calls| && s.mutex.calls[c].phase == Settled
    case Checkout(ref, _) => ref !in s.engine.payments
    case Deliver(e) => Reports(s.engine, e)
    case _ => true
  }

  /** The payment made at an answer, told to the run or not. */
  function NewPayment(io: Io): Option<Ref> {
    if io.Pays? && io.isNew then Some(io.ref) else if io.Declines? then io.took else None
  }

  function Charging(s: State, run: Run, io: Io): Engine {
    if run.pc.MonthOk? && NewPayment(io).Some? then
      var ref := NewPayment(io).value;
      Engine(s.engine.charges[ChargeKey(run.entryId) := ref],
             s.engine.payments[ref := Payment(run.tenant, run.pc.cfg.amount / MICROS_PER_CENT)])
    else s.engine
  }

  function Booking(s: State, run: Run, io: Io): Ledger {
    if run.pc.Crediting? && (io.Credited? || io == CreditThrew(true)) then
      s.ledger.Credit(run.tenant, run.pc.ref, run.pc.cfg.amount, s.engine.payments)
    else s.ledger
  }

  function Resumed(s: State, c: CallId, io: Io): State
    requires c < |s.runs| && c < |s.mutex.calls| && Answers(s.runs[c].pc, io)
  {
    var run := s.runs[c];
    var (a, pc) := Advance(s.limit, run.balance, s.AccountOf(run.tenant), run.pc, io);
    s.(runs := s.runs[c := run.(pc := pc)],
       accounts := s.accounts[run.tenant := a],
       engine := Charging(s, run, io),
       ledger := Booking(s, run, io),
       mutex := if pc.Done? then s.mutex.With(c, Settled) else s.mutex,
       active := if pc.Done? then s.active - {run.tenant} else s.active)
  }

  /** `handleWebhook`: only a completed payment of a known tenant is credited. */
  function HandleWebhook(l: Ledger, payments: map<Ref, Payment>, e: PaymentEvent): Ledger {
    if e.isPaymentSucceeded && e.tenantId.Some? then
      l.Credit(e.tenantId.value, e.paymentRef, e.amountMicros, payments)
    else l
  }

  function Step(s: State, e: BillingEvent): State
    requires Enabled(s, e)
  {
    match e
    case Crossing(t, balance, entryId) =>
      s.(mutex := s.mutex.Called(t), runs := s.runs + [Run(t, balance, entryId, Begin)])
    case Begins(c) => s.(mutex := s.mutex.With(c, Running), active := s.active[s.mutex.calls[c].key := c])
    case Resumes(c, io) => Resumed(s, c, io)
    case Finishes(c) => s.(mutex := s.mutex.Cleanup(c))
    case Update(t, p) => s.(accounts := s.accounts[t := PatchedAccount(s.AccountOf(t), p)])
    case Checkout(ref, payment) => s.(engine := s.engine.(payments := s.engine.payments[ref := payment]))
    case Deliver(e) => s.(ledger := HandleWebhook(s.ledger, s.engine.payments, NormalizeEvent(e)))
  }

  function After(s: State, es: seq<BillingEvent>): State
    decreases |es|
  {
    if es == [] then s
    else
      var before := After(s, es[..|es| - 1]);
      if Enabled(before, es[|es| - 1]) then Step(before, es[|es| - 1]) else before
  }
}
