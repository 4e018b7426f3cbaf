/** What every step of the auto-charge system keeps, tenant by tenant. */
module AutoChargeInvariants {
  import opened Options
  import opened KeyedMutex
  import opened Money
  import opened PaymentEvents
  import opened AutoChargeStore
  import opened AutoCharge

  // ---- Caps ----

  /** What a run has established about its charge by the time it stands at `pc`. */
  ghost predicate Reserved(log: seq<Charge>, pc: Pc) {
    match pc
    case DayOk(cfg, now) => SumSince(log, now - DAY_MS) + cfg.amount <= cfg.dailyCap
    case MonthOk(cfg, now) => ChecksPassed(log, cfg, now)
    case Paid(cfg, now, _, _) => ChecksPassed(log, cfg, now) && cfg.amount > 0
    case Crediting(cfg, now, _, _) => ChecksPassed(log, cfg, now) && cfg.amount > 0
    case Recording(cfg, now, _, _) => ChecksPassed(log, cfg, now) && cfg.amount > 0
    case _ => true
  }

  ghost predicate ChecksPassed(log: seq<Charge>, cfg: Config, now: int) {
    && SumSince(log, now - DAY_MS) + cfg.amount <= cfg.dailyCap
    && SumSince(log, now - MONTH_MS) + cfg.amount <= cfg.monthlyCap
  }

  predicate HasConfig(pc: Pc) {
    pc.Checked? || pc.DayOk? || pc.MonthOk? || pc.Paid? || pc.Crediting? || pc.Recording?
  }

  predicate SameCaps(c: Config, d: Config) { c.dailyCap == d.dailyCap && c.monthlyCap == d.monthlyCap }

  /** The logged charges respect both caps, and the run in progress works with those caps. */
  ghost predicate CapsOk(config: Option<Config>, log: seq<Charge>, pc: Pc) {
    && Positive(log) && Reserved(log, pc)
    && match config
       case None => log == [] && !HasConfig(pc)
       case Some(c) =>
         CapHolds(log, DAY_MS, c.dailyCap) && CapHolds(log, MONTH_MS, c.monthlyCap) && (HasConfig(pc) ==> SameCaps(pc.cfg, c))
  }

  lemma AdvanceKeepsCaps(limit: nat, balance: int, a: Account, pc: Pc, io: Io)
    requires Answers(pc, io) && CapsOk(a.config, a.log, pc)
    ensures var (a', pc') := Advance(limit, balance, a, pc, io); CapsOk(a'.config, a'.log, pc')
  {
    if pc.Recording? {
      var c := a.config.value;
      CheckedChargeKeepsCap(a.log, DAY_MS, c.dailyCap, pc.cfg.amount, pc.now);
      CheckedChargeKeepsCap(a.log, MONTH_MS, c.monthlyCap, pc.cfg.amount, pc.now);
    }
  }

  lemma EmptyCaps(w: int, cap: int)
    ensures CapHolds([], w, cap)
  {
  }

  lemma PatchKeepsCaps(a: Account, pc: Pc, p: Patch)
    requires CapsOk(a.config, a.log, pc)
    ensures CapsOk(PatchedAccount(a, p).config, a.log, pc)
  {
  }

  // ---- The breaker ----

  predicate IsEnabled(config: Option<Config>) { config.Some? && config.value.enabled }

  /** The stored counter is the streak of failed charges, but for the moment between a charge's
      answer and the counter's update; while auto-charge is enabled the streak is below the limit
      plus the number of re-enablings, and it never exceeds that sum. */
  ghost predicate BreakerOk(limit: nat, a: Account, pc: Pc) {
    && a.streak <= limit + a.enables
    && match pc
       case Checked(_) => a.failures == a.streak < limit + a.enables
       case DayOk(_, _) => a.failures == a.streak < limit + a.enables
       case MonthOk(_, _) => a.failures == a.streak < limit + a.enables
       case Declined => a.failures == a.streak - 1
       case Counted(n) => a.failures == a.streak - 1 && n == a.streak
       case Disabling(n) => a.failures == a.streak == n >= limit
       case Notifying(n) => a.failures == a.streak == n >= limit && (IsEnabled(a.config) ==> a.streak < limit + a.enables)
       case Paid(_, _, _, _) => a.streak == 0
       case _ => a.failures == a.streak && (IsEnabled(a.config) ==> a.streak < limit + a.enables)
  }

  lemma AdvanceKeepsBreaker(limit: nat, balance: int, a: Account, pc: Pc, io: Io)
    requires 1 <= limit && Answers(pc, io) && BreakerOk(limit, a, pc)
    ensures var (a', pc') := Advance(limit, balance, a, pc, io); BreakerOk(limit, a', pc')
  {
  }

  lemma PatchKeepsBreaker(limit: nat, a: Account, pc: Pc, p: Patch)
    requires BreakerOk(limit, a, pc)
    ensures BreakerOk(limit, PatchedAccount(a, p), pc)
  {
  }

  // ---- Card charges and the log ----

  /** In every window, what went on the card is what was logged, but for replays, and what is
      pending or was missed. */
  ghost predicate CardAddsUp(log: seq<Charge>, card: Card) {
    forall s: int, w: int ::
      WindowSum(card.charged, s, w) + WindowSum(card.replayed, s, w)
      == WindowSum(log, s, w) + WindowSum(card.pending, s, w) + WindowSum(card.missed, s, w)
  }

  ghost predicate CardsOk(log: seq<Charge>, card: Card, pc: Pc) {
    && CardAddsUp(log, card) && Positive(card.replayed) && Positive(card.missed)
    && match pc
       case Paid(cfg, now, _, isNew) => card.pending == if isNew then [Charge(cfg.amount, now)] else []
       case Crediting(cfg, now, _, isNew) => card.pending == if isNew then [Charge(cfg.amount, now)] else []
       case Recording(cfg, now, _, isNew) => card.pending == if isNew then [Charge(cfg.amount, now)] else []
       case _ => card.pending == []
  }

  lemma {:induction false} WindowAppend(a: seq<Charge>, b: seq<Charge>, s: int, w: int)
    ensures WindowSum(a + b, s, w) == WindowSum(a, s, w) + WindowSum(b, s, w)
    decreases |b|
  {
    if b == [] {
      assert a + b == a;
    } else {
      WindowAppend(a, b[..|b| - 1], s, w);
      assert (a + b)[..|a + b| - 1] == a + b[..|b| - 1];
    }
  }

  lemma MadeAddsUp(log: seq<Charge>, card: Card, made: seq<Charge>)
    requires CardAddsUp(log, card) && card.pending == []
    ensures CardAddsUp(log, card.Made(made))
  {
    forall s: int, w: int { WindowAppend(card.charged, made, s, w); }
  }

  lemma TakenAddsUp(log: seq<Charge>, card: Card, c: Charge)
    requires CardAddsUp(log, card)
    ensures CardAddsUp(log, card.Taken(c))
  {
    forall s: int, w: int
      ensures WindowSum(card.charged + [c], s, w) == WindowSum(card.charged, s, w) + WindowSum([c], s, w)
      ensures WindowSum(card.missed + [c], s, w) == WindowSum(card.missed, s, w) + WindowSum([c], s, w)
    {
      WindowAppend(card.charged, [c], s, w);
      WindowAppend(card.missed, [c], s, w);
    }
  }

  lemma EndedAddsUp(log: seq<Charge>, card: Card)
    requires CardAddsUp(log, card)
    ensures CardAddsUp(log, card.Ended())
  {
    forall s: int, w: int { WindowAppend(card.missed, card.pending, s, w); }
  }

  lemma LoggedAddsUp(log: seq<Charge>, card: Card, c: Charge, isNew: bool)
    requires CardAddsUp(log, card) && card.pending == if isNew then [c] else []
    ensures CardAddsUp(log + [c], card.Logged(c, isNew))
  {
    forall s: int, w: int
      ensures WindowSum(log + [c], s, w) == WindowSum(log, s, w) + WindowSum([c], s, w)
      ensures WindowSum(card.replayed + [c], s, w) == WindowSum(card.replayed, s, w) + WindowSum([c], s, w)
    {
      WindowAppend(log, [c], s, w);
      WindowAppend(card.replayed, [c], s, w);
    }
  }

  lemma AnswerKeepsCards(log: seq<Charge>, card: Card, cfg: Config, now: int, io: Io)
    requires Answers(MonthOk(cfg, now), io) && CardsOk(log, card, MonthOk(cfg, now)) && (io.Declines? || cfg.amount > 0)
    ensures var c := Charge(cfg.amount, now);
      if io.Pays? then CardsOk(log, card.Made(if io.isNew then [c] else []), Paid(cfg, now, io.ref, io.isNew))
      else CardsOk(log, if io.took.Some? then card.Taken(c) else card, Declined)
  {
    var c := Charge(cfg.amount, now);
    if io.Pays? { MadeAddsUp(log, card, if io.isNew then [c] else []); } else { TakenAddsUp(log, card, c); }
  }

  lemma CreditKeepsCards(log: seq<Charge>, card: Card, pc: Pc, outcome: Outcome)
    requires pc.Crediting? && CardsOk(log, card, pc) && pc.cfg.amount > 0
    ensures CardsOk(log, card.Ended(), Done(outcome))
  {
    EndedAddsUp(log, card);
  }

  lemma RecordKeepsCards(log: seq<Charge>, card: Card, pc: Pc, outcome: Outcome)
    requires pc.Recording? && CardsOk(log, card, pc) && pc.cfg.amount > 0
    ensures var c := Charge(pc.cfg.amount, pc.now); CardsOk(log + [c], card.Logged(c, pc.isNew), Done(outcome))
  {
    LoggedAddsUp(log, card, Charge(pc.cfg.amount, pc.now), pc.isNew);
  }

  lemma AdvanceKeepsCards(limit: nat, balance: int, a: Account, pc: Pc, io: Io)
    requires Answers(pc, io) && CardsOk(a.log, a.card, pc) && Reserved(a.log, pc)
    ensures var (a', pc') := Advance(limit, balance, a, pc, io); CardsOk(a'.log, a'.card, pc')
  {
    var pc' := Advance(limit, balance, a, pc, io).1;
    match pc {
      case MonthOk(cfg, now) => AnswerKeepsCards(a.log, a.card, cfg, now, io);
      case Crediting(cfg, now, ref, isNew) =>
        if pc'.Done? { CreditKeepsCards(a.log, a.card, pc, pc'.outcome); }
      case Recording(cfg, now, ref, isNew) => RecordKeepsCards(a.log, a.card, pc, pc'.outcome);
      case _ =>
    }
  }

  // ---- One tenant ----

  ghost predicate AccountOk(limit: nat, a: Account, pc: Pc) {
    CapsOk(a.config, a.log, pc) && BreakerOk(limit, a, pc) && CardsOk(a.log, a.card, pc)
  }

  lemma AdvanceKeeps(limit: nat, balance: int, a: Account, pc: Pc, io: Io)
    requires 1 <= limit && Answers(pc, io) && AccountOk(limit, a, pc)
    ensures var (a', pc') := Advance(limit, balance, a, pc, io); AccountOk(limit, a', pc')
  {
    AdvanceKeepsCaps(limit, balance, a, pc, io);
    AdvanceKeepsBreaker(limit, balance, a, pc, io);
    AdvanceKeepsCards(limit, balance, a, pc, io);
  }

  lemma PatchKeeps(limit: nat, a: Account, pc: Pc, p: Patch)
    requires AccountOk(limit, a, pc)
    ensures AccountOk(limit, PatchedAccount(a, p), pc)
  {
    PatchKeepsCaps(a, pc, p);
    PatchKeepsBreaker(limit, a, pc, p);
  }

  /** A run that has ended leaves its tenant as a run about to begin finds it. */
  lemma DoneIsIdle(limit: nat, a: Account, pc: Pc)
    requires AccountOk(limit, a, pc) && pc.Done?
    ensures AccountOk(limit, a, Begin)
  {
  }

  // ---- The runs and the mutex ----

  ghost predicate RunOk(s: State, c: CallId) {
    c < |s.runs| && c < |s.mutex.calls| ==>
      && s.runs[c].tenant == s.mutex.calls[c].key
      && (match s.mutex.calls[c].phase
          case Waiting => s.runs[c].pc == Begin
          case Running => !s.runs[c].pc.Done? && s.runs[c].tenant in s.active && s.active[s.runs[c].tenant] == c
          case _ => s.runs[c].pc.Done?)
  }

  ghost predicate ActiveOk(s: State, t: Tenant) {
    t in s.active ==>
      && s.active[t] < |s.runs| == |s.mutex.calls|
      && s.mutex.calls[s.active[t]].phase == Running && s.runs[s.active[t]].tenant == t
  }

  function PcOf(s: State, t: Tenant): Pc {
    if t in s.active && s.active[t] < |s.runs| then s.runs[s.active[t]].pc else Begin
  }

  ghost predicate RunsOk(s: State) {
    && LockInv(s.mutex) && |s.runs| == |s.mutex.calls|
    && (forall c :: RunOk(s, c))
    && (forall t :: ActiveOk(s, t))
  }

  ghost predicate Inv(s: State) {
    && 1 <= s.limit
    && RunsOk(s)
    && (forall t :: AccountOk(s.limit, s.AccountOf(t), PcOf(s, t)))
  }

  /** A call can only start when its tenant has no run in progress: this is what the mutex is for. */
  lemma StartsAlone(s: State, c: CallId)
    requires RunsOk(s) && s.mutex.CanStart(c)
    ensures s.mutex.calls[c].key !in s.active
  {
    var t := s.mutex.calls[c].key;
    if t in s.active {
      assert ActiveOk(s, t);
      var d := s.active[t];
      assert RunOk(s, d) && RunOk(s, c);
      if d < c { StarterIsNext(s.mutex, c, d); } else { OneAtATimeInOrder(s.mutex, c, d); }
      assert false;
    }
  }

  /** The mutex step that a system step makes, if any. */
  function MutexEvent(s: State, e: BillingEvent): Option<LockEvent>
    requires Enabled(s, e)
  {
    match e
    case Crossing(t, _, _) => Some(Invoke(t))
    case Begins(c) => Some(Start(c))
    case Resumes(c, io) => if Resumed(s, c, io).runs[c].pc.Done? then Some(Settle(c)) else None
    case Finishes(c) => Some(Finally(c))
    case _ => None
  }

  lemma MutexKept(s: State, e: BillingEvent)
    requires LockInv(s.mutex) && Enabled(s, e)
    ensures LockInv(Step(s, e).mutex)
  {
    var m := MutexEvent(s, e);
    if m.Some? { LockStepKeeps(s.mutex, m.value); }
  }

  lemma RunsKept(s: State, e: BillingEvent)
    requires RunsOk(s) && Enabled(s, e)
    ensures RunsOk(Step(s, e))
  {
    MutexKept(s, e);
    var n := Step(s, e);
    if e.Begins? { StartsAlone(s, e.c); }
    forall c ensures RunOk(n, c) { RunKept(s, e, c); }
    forall t ensures ActiveOk(n, t) { ActiveKept(s, e, t); }
  }

  lemma RunKept(s: State, e: BillingEvent, c: CallId)
    requires RunsOk(s) && Enabled(s, e)
    requires e.Begins? ==> s.mutex.calls[e.c].key !in s.active
    ensures RunOk(Step(s, e), c)
  {
    assert RunOk(s, c);
    if e.Begins? || e.Resumes? || e.Finishes? { assert RunOk(s, e.c); }
  }

  lemma ActiveKept(s: State, e: BillingEvent, t: Tenant)
    requires RunsOk(s) && Enabled(s, e)
    ensures ActiveOk(Step(s, e), t)
  {
    assert ActiveOk(s, t);
    if e.Begins? || e.Resumes? || e.Finishes? { assert RunOk(s, e.c); }
  }

  lemma StepKeeps(s: State, e: BillingEvent)
    requires Inv(s) && Enabled(s, e)
    ensures Inv(Step(s, e))
  {
    RunsKept(s, e);
    var n := Step(s, e);
    forall t ensures AccountOk(n.limit, n.AccountOf(t), PcOf(n, t)) { AccountKept(s, e, t); }
  }

  lemma AccountResumed(s: State, c: CallId, io: Io, t: Tenant)
    requires Inv(s) && Enabled(s, Resumes(c, io))
    ensures var n := Step(s, Resumes(c, io)); AccountOk(s.limit, n.AccountOf(t), PcOf(n, t))
  {
    assert AccountOk(s.limit, s.AccountOf(t), PcOf(s, t));
    assert RunOk(s, c);
    var run := s.runs[c];
    if run.tenant == t {
      AdvanceKeeps(s.limit, run.balance, s.AccountOf(t), run.pc, io);
      var (a, pc) := Advance(s.limit, run.balance, s.AccountOf(t), run.pc, io);
      if pc.Done? { DoneIsIdle(s.limit, a, pc); }
    } else {
      OthersUnmoved(s, c, io, t);
    }
  }

  /** A run touches neither the account nor the run of another tenant. */
  lemma OthersUnmoved(s: State, c: CallId, io: Io, t: Tenant)
    requires RunsOk(s) && Enabled(s, Resumes(c, io)) && s.runs[c].tenant != t
    ensures var n := Step(s, Resumes(c, io)); n.AccountOf(t) == s.AccountOf(t) && PcOf(n, t) == PcOf(s, t)
  {
    assert ActiveOk(s, t);
  }

  lemma AccountKept(s: State, e: BillingEvent, t: Tenant)
    requires Inv(s) && Enabled(s, e)
    ensures AccountOk(s.limit, Step(s, e).AccountOf(t), PcOf(Step(s, e), t))
  {
    assert AccountOk(s.limit, s.AccountOf(t), PcOf(s, t));
    assert ActiveOk(s, t);
    match e {
      case Begins(c) =>
        StartsAlone(s, c);
        assert RunOk(s, c);
      case Resumes(c, io) => AccountResumed(s, c, io, t);
      case Update(u, p) =>
        if u == t { PatchKeeps(s.limit, s.AccountOf(t), PcOf(s, t), p); }
      case _ =>
    }
  }

  lemma InitHolds(limit: nat, configs: map<Tenant, Config>)
    requires 1 <= limit
    ensures Inv(Init(limit, configs))
  {
    forall w, cap ensures CapHolds([], w, cap) { EmptyCaps(w, cap); }
  }

  lemma {:induction false} Reachable(limit: nat, configs: map<Tenant, Config>, es: seq<BillingEvent>)
    requires 1 <= limit
    ensures Inv(After(Init(limit, configs), es))
    decreases |es|
  {
    InitHolds(limit, configs);
    if es != [] {
      Reachable(limit, configs, es[..|es| - 1]);
      var before := After(Init(limit, configs), es[..|es| - 1]);
      if Enabled(before, es[|es| - 1]) { StepKeeps(before, es[|es| - 1]); }
    }
  }
}
