/** What auto-charge guarantees over whole runs. */
module AutoChargeTheorems {
  import opened Options
  import opened KeyedMutex
  import opened Money
  import opened PaymentEvents
  import opened AutoChargeStore
  import opened AutoCharge
  import opened AutoChargeInvariants

  // ---- Caps ----

  function DailyCap(c: Option<Config>): int { if c.Some? then c.value.dailyCap else 0 }
  function MonthlyCap(c: Option<Config>): int { if c.Some? then c.value.monthlyCap else 0 }

  /** No step changes a tenant's caps. */
  lemma CapsFixed(s: State, e: BillingEvent, t: Tenant)
    requires Enabled(s, e)
    ensures DailyCap(Step(s, e).AccountOf(t).config) == DailyCap(s.AccountOf(t).config)
    ensures MonthlyCap(Step(s, e).AccountOf(t).config) == MonthlyCap(s.AccountOf(t).config)
  {
  }

  /** In every reachable state, whatever interleaving, failure or clock led there, the recorded
      charges in any 24 hours stay within the tenant's daily cap, and in any 30 days within its
      monthly cap, as those were set up before the run. */
  lemma {:induction false} CapsNeverExceeded(limit: nat, configs: map<Tenant, Config>, es: seq<BillingEvent>, t: Tenant)
    requires 1 <= limit
    ensures var a := After(Init(limit, configs), es).AccountOf(t);
      var c := if t in configs then Some(configs[t]) else None;
      && CapHolds(a.log, DAY_MS, DailyCap(c)) && CapHolds(a.log, MONTH_MS, MonthlyCap(c))
      && DailyCap(a.config) == DailyCap(c) && MonthlyCap(a.config) == MonthlyCap(c)
    decreases |es|
  {
    Reachable(limit, configs, es);
    var s := After(Init(limit, configs), es);
    assert AccountOk(s.limit, s.AccountOf(t), PcOf(s, t));
    EmptyCaps(DAY_MS, 0);
    EmptyCaps(MONTH_MS, 0);
    if es != [] {
      CapsNeverExceeded(limit, configs, es[..|es| - 1], t);
      var before := After(Init(limit, configs), es[..|es| - 1]);
      if Enabled(before, es[|es| - 1]) { CapsFixed(before, es[|es| - 1], t); }
    }
  }

  // ---- The card ----

  /** No charge of `log` lies in the window `(start, start + width]`. */
  ghost predicate NoneIn(log: seq<Charge>, start: int, width: int) {
    forall i | 0 <= i < |log| :: !(start < log[i].at <= start + width)
  }

  lemma {:induction false} NoneInSum(log: seq<Charge>, start: int, width: int)
    requires NoneIn(log, start, width)
    ensures WindowSum(log, start, width) == 0
    decreases |log|
  {
    if log != [] { NoneInSum(log[..|log| - 1], start, width); }
  }

  /** What was logged and what is pending together stay within a cap the run was checked against. */
  lemma PendingWithinCap(log: seq<Charge>, pending: seq<Charge>, w: nat, cap: int, start: int)
    requires Positive(log) && CapHolds(log, w, cap) && |pending| <= 1
    requires pending != [] ==> SumSince(log, pending[0].at - w) + pending[0].amount <= cap
    ensures WindowSum(log, start, w) + WindowSum(pending, start, w) <= if cap < 0 then 0 else cap
  {
    if pending == [] {
      assert WindowSum(log, start, w) <= if cap < 0 then 0 else cap;
    } else {
      var c := pending[0];
      assert pending == [c] && c == Charge(c.amount, c.at);
      CheckedChargeKeepsCap(log, w, cap, c.amount, c.at);
      WindowAppend(log, [c], start, w);
      assert WindowSum(log + [c], start, w) <= if cap < 0 then 0 else cap;
    }
  }

  /** In every reachable state and every window the card charges exceed the cap by at most what was
      missed there less what was replayed; where nothing was missed, the cap holds for the card. */
  lemma CardWithinCaps(limit: nat, configs: map<Tenant, Config>, es: seq<BillingEvent>, t: Tenant, w: nat, start: int)
    requires 1 <= limit && (w == DAY_MS || w == MONTH_MS)
    ensures var a := After(Init(limit, configs), es).AccountOf(t);
      var cap := if w == DAY_MS then DailyCap(a.config) else MonthlyCap(a.config);
      var most := if cap < 0 then 0 else cap;
      && WindowSum(a.card.charged, start, w) + WindowSum(a.card.replayed, start, w)
         <= most + WindowSum(a.card.missed, start, w)
      && (NoneIn(a.card.missed, start, w) ==> WindowSum(a.card.charged, start, w) <= most)
  {
    Reachable(limit, configs, es);
    var s := After(Init(limit, configs), es);
    AccountWithinCap(s.limit, s.AccountOf(t), PcOf(s, t), w, start);
  }

  lemma AccountWithinCap(limit: nat, a: Account, pc: Pc, w: nat, start: int)
    requires AccountOk(limit, a, pc) && (w == DAY_MS || w == MONTH_MS)
    ensures var cap := if w == DAY_MS then DailyCap(a.config) else MonthlyCap(a.config);
      var most := if cap < 0 then 0 else cap;
      && WindowSum(a.card.charged, start, w) + WindowSum(a.card.replayed, start, w)
         <= most + WindowSum(a.card.missed, start, w)
      && (NoneIn(a.card.missed, start, w) ==> WindowSum(a.card.charged, start, w) <= most)
  {
    if a.config == None { EmptyCaps(w, 0); }
    WithinCap(a.log, a.card, w, if w == DAY_MS then DailyCap(a.config) else MonthlyCap(a.config), start);
  }

  lemma WithinCap(log: seq<Charge>, card: Card, w: nat, cap: int, start: int)
    requires CardAddsUp(log, card) && Positive(log) && Positive(card.replayed) && CapHolds(log, w, cap)
    requires |card.pending| <= 1
    requires card.pending != [] ==> SumSince(log, card.pending[0].at - w) + card.pending[0].amount <= cap
    ensures var most := if cap < 0 then 0 else cap;
      && WindowSum(card.charged, start, w) + WindowSum(card.replayed, start, w) <= most + WindowSum(card.missed, start, w)
      && (NoneIn(card.missed, start, w) ==> WindowSum(card.charged, start, w) <= most)
  {
    PendingWithinCap(log, card.pending, w, cap, start);
    WindowWithin(card.replayed, start, w, start);
    if NoneIn(card.missed, start, w) { NoneInSum(card.missed, start, w); }
  }

  /** In every window, what went on the card is what was logged, less the replays, and what is
      pending or was missed: so the card exceeds a cap exactly when what was missed exceeds the
      replays and the room the log and the pending charge leave. */
  lemma CardAddsUpAlways(limit: nat, configs: map<Tenant, Config>, es: seq<BillingEvent>, t: Tenant, w: int, start: int)
    requires 1 <= limit
    ensures var a := After(Init(limit, configs), es).AccountOf(t);
      WindowSum(a.card.charged, start, w) + WindowSum(a.card.replayed, start, w)
      == WindowSum(a.log, start, w) + WindowSum(a.card.pending, start, w) + WindowSum(a.card.missed, start, w)
  {
    Reachable(limit, configs, es);
    var s := After(Init(limit, configs), es);
    assert AccountOk(s.limit, s.AccountOf(t), PcOf(s, t));
  }

  /** The card is charged exactly when the engine makes a new payment, whatever it answers. */
  lemma ChargedExactly(limit: nat, configs: map<Tenant, Config>, es: seq<BillingEvent>, e: BillingEvent, t: Tenant)
    requires 1 <= limit && Enabled(After(Init(limit, configs), es), e)
    ensures var s := After(Init(limit, configs), es);
      var charges := e.Resumes? && s.runs[e.c].tenant == t && s.runs[e.c].pc.MonthOk? && NewPayment(e.io).Some?;
      Step(s, e).AccountOf(t).card.charged == s.AccountOf(t).card.charged
        + if charges then [Charge(s.runs[e.c].pc.cfg.amount, s.runs[e.c].pc.now)] else []
  {
    Reachable(limit, configs, es);
    StepCharges(After(Init(limit, configs), es), e, t);
  }

  lemma StepCharges(s: State, e: BillingEvent, t: Tenant)
    requires RunsOk(s) && Enabled(s, e)
    ensures var charges := e.Resumes? && s.runs[e.c].tenant == t && s.runs[e.c].pc.MonthOk? && NewPayment(e.io).Some?;
      Step(s, e).AccountOf(t).card.charged == s.AccountOf(t).card.charged
        + if charges then [Charge(s.runs[e.c].pc.cfg.amount, s.runs[e.c].pc.now)] else []
  {
    if e.Resumes? { assert RunOk(s, e.c); }
  }

  predicate Misses(pc: Pc, io: Io) {
    || (pc.MonthOk? && io.Declines? && io.took.Some?)
    || (pc.Crediting? && pc.isNew && io != Credited(true))
  }

  /** A charge is missed exactly when the engine answers that it failed and it was taken all the same,
      or when a run ends at the credit of a payment it made itself: the credit threw, or found the
      payment credited already. */
  lemma MissedExactly(limit: nat, configs: map<Tenant, Config>, es: seq<BillingEvent>, e: BillingEvent, t: Tenant)
    requires 1 <= limit && Enabled(After(Init(limit, configs), es), e)
    ensures var s := After(Init(limit, configs), es);
      var misses := e.Resumes? && s.runs[e.c].tenant == t && Misses(s.runs[e.c].pc, e.io);
      Step(s, e).AccountOf(t).card.missed == s.AccountOf(t).card.missed
        + if misses then [Charge(s.runs[e.c].pc.cfg.amount, s.runs[e.c].pc.now)] else []
  {
    Reachable(limit, configs, es);
    var s := After(Init(limit, configs), es);
    assert AccountOk(s.limit, s.AccountOf(t), PcOf(s, t));
    if e.Resumes? { assert RunOk(s, e.c); }
  }

  // ---- The breaker ----

  /** Since the last success a tenant has had at most `limit` failed charges plus one for each
      time it was enabled again; without that, at most `limit`, however many events arrived. */
  lemma ChargesBounded(limit: nat, configs: map<Tenant, Config>, es: seq<BillingEvent>, t: Tenant)
    requires 1 <= limit
    ensures var a := After(Init(limit, configs), es).AccountOf(t); a.streak <= limit + a.enables
  {
    Reachable(limit, configs, es);
    LimitFixed(limit, configs, es);
    var s := After(Init(limit, configs), es);
    assert AccountOk(s.limit, s.AccountOf(t), PcOf(s, t));
  }

  /** A run reports a failure with the exact streak, and auto-charge is disabled exactly when that
      streak has reached the limit. */
  lemma FailureReportedExactly(limit: nat, configs: map<Tenant, Config>, es: seq<BillingEvent>, c: CallId, io: Io)
    requires 1 <= limit && Enabled(After(Init(limit, configs), es), Resumes(c, io))
    ensures var s := After(Init(limit, configs), es);
      var n := Step(s, Resumes(c, io));
      var a := n.AccountOf(s.runs[c].tenant);
      && (n.runs[c].pc.Done? && n.runs[c].pc.outcome.Failed? ==>
            n.runs[c].pc.outcome.failures == a.streak == a.failures < limit)
      && (n.runs[c].pc.Done? && n.runs[c].pc.outcome.AutoDisabled? ==>
            n.runs[c].pc.outcome.failures == a.streak == a.failures >= limit)
      && (s.runs[c].pc.Counted? ==>
            (if a.streak >= limit then n.runs[c].pc == Disabling(a.streak) else n.runs[c].pc == Done(Failed(a.streak))))
      && (s.runs[c].pc.Disabling? ==> !IsEnabled(a.config))
  {
    Reachable(limit, configs, es);
    LimitFixed(limit, configs, es);
    var s := After(Init(limit, configs), es);
    assert RunOk(s, c);
    assert AccountOk(s.limit, s.AccountOf(s.runs[c].tenant), PcOf(s, s.runs[c].tenant));
  }

  lemma {:induction false} LimitFixed(limit: nat, configs: map<Tenant, Config>, es: seq<BillingEvent>)
    ensures After(Init(limit, configs), es).limit == limit
    decreases |es|
  {
    if es != [] { LimitFixed(limit, configs, es[..|es| - 1]); }
  }

  // ---- Where log and card part ----

  lemma Extend(s: State, es: seq<BillingEvent>, b: State, e: BillingEvent)
    requires b == After(s, es) && Enabled(b, e)
    ensures After(s, es + [e]) == Step(b, e)
  {
    assert (es + [e])[..|es|] == es;
  }

  const ONE_CENT := Config(true, 1, MICROS_PER_CENT, MICROS_PER_CENT, MICROS_PER_CENT)

  lemma Extend3(s: State, es: seq<BillingEvent>, b: State, e1: BillingEvent, e2: BillingEvent, e3: BillingEvent)
    requires b == After(s, es) && Enabled(b, e1) && Enabled(Step(b, e1), e2) && Enabled(Step(Step(b, e1), e2), e3)
    ensures After(s, es + [e1, e2, e3]) == Step(Step(Step(b, e1), e2), e3)
  {
    Extend(s, es, b, e1);
    Extend(s, es + [e1], Step(b, e1), e2);
    Extend(s, es + [e1] + [e2], Step(Step(b, e1), e2), e3);
    OneByOne(es, e1, e2, e3);
  }

  lemma OneByOne(es: seq<BillingEvent>, e1: BillingEvent, e2: BillingEvent, e3: BillingEvent)
    ensures es + [e1, e2, e3] == es + [e1] + [e2] + [e3]
  {
  }

  /** A payment's own webhook may credit it before the run that made it does. The run then logs
      nothing, the next crossing is checked against an empty log, and the card is charged past the
      daily cap, although the recorded charges are not. */
  lemma WebhookFirstOverruns() returns (es: seq<BillingEvent>)
    ensures var a := After(Init(1, map["t" := ONE_CENT]), es).AccountOf("t");
      && WindowSum(a.log, -1, DAY_MS) == 0
      && WindowSum(a.card.charged, -1, DAY_MS) > ONE_CENT.dailyCap
  {
    var s0 := Init(1, map["t" := ONE_CENT]);
    assert ChargeKey("e1")[11..] == "e1" && ChargeKey("e2")[11..] == "e2";
    assert CreditKeyForPayment("p1")[7..] == "p1" && CreditKeyForPayment("p2")[7..] == "p2";
    var s1, es1 := OneRun(s0, s0, [], 0, "e1", "p1");
    var s2, es2 := OneRun(s0, s1, es1, 1, "e2", "p2");
    es := es2;
    var a := s2.AccountOf("t");
    var c := Charge(MICROS_PER_CENT, 0);
    assert a.card.charged[..1] == [c] && a.card.charged[..1][..0] == [];
  }

  /** Tenant "t" is set up as above and has no call outstanding and nothing logged. */
  ghost predicate AtRest(s: State, c: CallId) {
    && c == |s.runs| == |s.mutex.calls| && "t" !in s.mutex.tails
    && s.AccountOf("t").config == Some(ONE_CENT) && s.AccountOf("t").log == []
  }

  /** One crossing from start to finish, its webhook arriving between payment and credit. */
  lemma OneRun(s0: State, s: State, es: seq<BillingEvent>, c: CallId, entryId: string, ref: Ref)
    returns (s': State, es': seq<BillingEvent>)
    requires s == After(s0, es) && AtRest(s, c)
    requires ChargeKey(entryId) !in s.engine.charges && ref !in s.engine.payments
    requires CreditKeyForPayment(ref) !in s.ledger.EntriesOf("t")
    ensures s' == After(s0, es') && AtRest(s', c + 1)
    ensures s'.AccountOf("t").card.charged == s.AccountOf("t").card.charged + [Charge(MICROS_PER_CENT, 0)]
    ensures s'.engine.charges == s.engine.charges[ChargeKey(entryId) := ref]
    ensures s'.engine.payments == s.engine.payments[ref := Payment("t", 1)]
    ensures s'.ledger.EntriesOf("t") == s.ledger.EntriesOf("t")[CreditKeyForPayment(ref) := MICROS_PER_CENT]
  {
    var s1, es1 := CheckRun(s0, s, es, c, entryId);
    var s2, es2 := PayRun(s0, s1, es1, c, entryId, ref);
    s', es' := CreditRun(s0, s2, es2, c, entryId, ref);
  }

  lemma CheckRun(s0: State, s: State, es: seq<BillingEvent>, c: CallId, entryId: string)
    returns (s': State, es': seq<BillingEvent>)
    requires s == After(s0, es) && AtRest(s, c)
    ensures s' == After(s0, es')
    ensures s' == s.(mutex := Mutex(s.mutex.tails["t" := c], s.mutex.calls + [Call("t", None, Running)]),
                     runs := s.runs + [Run("t", 0, entryId, Checked(ONE_CENT))], active := s.active["t" := c],
                     accounts := s.accounts["t" := s.AccountOf("t")])
  {
    Extend3(s0, es, s, Crossing("t", 0, entryId), Begins(c), Resumes(c, Quiet));
    es' := es + [Crossing("t", 0, entryId), Begins(c), Resumes(c, Quiet)];
    s' := Step(Step(Step(s, Crossing("t", 0, entryId)), Begins(c)), Resumes(c, Quiet));
  }

  lemma PayRun(s0: State, s: State, es: seq<BillingEvent>, c: CallId, entryId: string, ref: Ref)
    returns (s': State, es': seq<BillingEvent>)
    requires s == After(s0, es) && c + 1 == |s.runs| == |s.mutex.calls| && s.mutex.calls[c].phase == Running
    requires s.runs[c] == Run("t", 0, entryId, Checked(ONE_CENT)) && s.AccountOf("t").log == []
    requires ChargeKey(entryId) !in s.engine.charges && ref !in s.engine.payments
    ensures s' == After(s0, es')
    ensures s' == s.(runs := s.runs[c := Run("t", 0, entryId, Paid(ONE_CENT, 0, ref, true))],
                     accounts := s.accounts["t" := s'.AccountOf("t")],
                     engine := Engine(s.engine.charges[ChargeKey(entryId) := ref],
                                      s.engine.payments[ref := Payment("t", 1)]))
    ensures var made := [Charge(MICROS_PER_CENT, 0)];
      s'.AccountOf("t") == s.AccountOf("t").(streak := 0, enables := 0, card := s.AccountOf("t").card.Made(made))
  {
    s' := PaySteps(s, c, entryId, ref);
    Extend3(s0, es, s, Resumes(c, Clock(0)), Resumes(c, Quiet), Resumes(c, Pays(ref, true)));
    es' := es + [Resumes(c, Clock(0)), Resumes(c, Quiet), Resumes(c, Pays(ref, true))];
  }

  lemma PaySteps(s: State, c: CallId, entryId: string, ref: Ref) returns (s': State)
    requires c + 1 == |s.runs| == |s.mutex.calls| && s.mutex.calls[c].phase == Running
    requires s.runs[c] == Run("t", 0, entryId, Checked(ONE_CENT)) && s.AccountOf("t").log == []
    requires ChargeKey(entryId) !in s.engine.charges && ref !in s.engine.payments
    ensures var (e1, e2, e3) := (Resumes(c, Clock(0)), Resumes(c, Quiet), Resumes(c, Pays(ref, true)));
      && Enabled(s, e1) && Enabled(Step(s, e1), e2) && Enabled(Step(Step(s, e1), e2), e3)
      && s' == Step(Step(Step(s, e1), e2), e3)
    ensures s' == s.(runs := s.runs[c := Run("t", 0, entryId, Paid(ONE_CENT, 0, ref, true))],
                     accounts := s.accounts["t" := s'.AccountOf("t")],
                     engine := Engine(s.engine.charges[ChargeKey(entryId) := ref],
                                      s.engine.payments[ref := Payment("t", 1)]))
    ensures var made := [Charge(MICROS_PER_CENT, 0)];
      s'.AccountOf("t") == s.AccountOf("t").(streak := 0, enables := 0, card := s.AccountOf("t").card.Made(made))
  {
    s' := Step(Step(Step(s, Resumes(c, Clock(0))), Resumes(c, Quiet)), Resumes(c, Pays(ref, true)));
  }

  lemma CreditRun(s0: State, s: State, es: seq<BillingEvent>, c: CallId, entryId: string, ref: Ref)
    returns (s': State, es': seq<BillingEvent>)
    requires s == After(s0, es) && c + 1 == |s.runs| == |s.mutex.calls|
    requires s.mutex.calls[c] == Call("t", None, Running) && s.mutex.tails == s.mutex.tails["t" := c]
    requires s.runs[c] == Run("t", 0, entryId, Paid(ONE_CENT, 0, ref, true)) && s.AccountOf("t").log == []
    requires s.AccountOf("t").config == Some(ONE_CENT)
    requires ref in s.engine.payments && s.engine.payments[ref] == Payment("t", 1)
    requires CreditKeyForPayment(ref) !in s.ledger.EntriesOf("t")
    ensures s' == After(s0, es') && AtRest(s', c + 1) && s'.engine == s.engine
    ensures s'.AccountOf("t") == s.AccountOf("t").(failures := 0, card := s.AccountOf("t").card.Ended())
    ensures s'.ledger.EntriesOf("t") == s.ledger.EntriesOf("t")[CreditKeyForPayment(ref) := MICROS_PER_CENT]
  {
    var hook := Deliver(IntentSucceeded(ref, Some(1), Some("t")));
    var b := CreditSteps(s, c, entryId, ref);
    Extend3(s0, es, s, hook, Resumes(c, Quiet), Resumes(c, Credited(false)));
    es' := es + [hook, Resumes(c, Quiet), Resumes(c, Credited(false))];
    Extend(s0, es', b, Finishes(c));
    es' := es' + [Finishes(c)];
    s' := Step(b, Finishes(c));
  }

  /** The webhook credits, and the run goes on to find the payment credited already. */
  lemma CreditSteps(s: State, c: CallId, entryId: string, ref: Ref) returns (b: State)
    requires c + 1 == |s.runs| == |s.mutex.calls| && s.mutex.calls[c] == Call("t", None, Running)
    requires s.runs[c] == Run("t", 0, entryId, Paid(ONE_CENT, 0, ref, true))
    requires ref in s.engine.payments && s.engine.payments[ref] == Payment("t", 1)
    requires CreditKeyForPayment(ref) !in s.ledger.EntriesOf("t")
    ensures var hook := Deliver(IntentSucceeded(ref, Some(1), Some("t")));
      && Enabled(s, hook) && Enabled(Step(s, hook), Resumes(c, Quiet))
      && Enabled(Step(Step(s, hook), Resumes(c, Quiet)), Resumes(c, Credited(false)))
      && b == Step(Step(Step(s, hook), Resumes(c, Quiet)), Resumes(c, Credited(false)))
    ensures b.ledger.EntriesOf("t") == s.ledger.EntriesOf("t")[CreditKeyForPayment(ref) := MICROS_PER_CENT]
    ensures b.AccountOf("t") == s.AccountOf("t").(failures := 0, card := s.AccountOf("t").card.Ended())
    ensures b.engine == s.engine && |b.runs| == c + 1 && b.mutex == s.mutex.With(c, Settled)
  {
    b := Step(Step(Step(s, Deliver(IntentSucceeded(ref, Some(1), Some("t")))), Resumes(c, Quiet)), Resumes(c, Credited(false)));
  }

  // ---- A charge taken although it was answered as failed ----

  /** The engine answers two charges with failure, and both were taken: the runs count failures and log
      nothing, so the second crossing is checked against an empty log too, and the card goes past the
      daily cap, although no run reports a charge. */
  lemma TakenUnreportedOverruns() returns (es: seq<BillingEvent>)
    ensures var s := After(Init(3, map["t" := ONE_CENT]), es);
      var a := s.AccountOf("t");
      && |s.runs| == 2 && s.runs[0].pc == Done(Failed(1)) && s.runs[1].pc == Done(Failed(2))
      && WindowSum(a.log, -1, DAY_MS) == 0
      && WindowSum(a.card.charged, -1, DAY_MS) > ONE_CENT.dailyCap
  {
    var s0 := Init(3, map["t" := ONE_CENT]);
    assert ChargeKey("e1")[11..] == "e1" && ChargeKey("e2")[11..] == "e2";
    var s1, es1 := TakenRun(s0, s0, [], 0, "e1", "p1");
    var s2, es2 := TakenRun(s0, s1, es1, 1, "e2", "p2");
    es := es2;
    var a := s2.AccountOf("t");
    var c := Charge(MICROS_PER_CENT, 0);
    assert a.card.charged[..1] == [c] && a.card.charged[..1][..0] == [];
  }

  lemma TakenRun(s0: State, s: State, es: seq<BillingEvent>, c: CallId, entryId: string, ref: Ref)
    returns (s': State, es': seq<BillingEvent>)
    requires s == After(s0, es) && AtRest(s, c) && s.AccountOf("t").failures + 1 < s.limit
    requires ChargeKey(entryId) !in s.engine.charges && ref !in s.engine.payments
    ensures s' == After(s0, es') && AtRest(s', c + 1) && s'.limit == s.limit
    ensures s'.runs[..c] == s.runs && s'.runs[c].pc == Done(Failed(s.AccountOf("t").failures + 1))
    ensures s'.AccountOf("t").failures == s.AccountOf("t").failures + 1
    ensures s'.AccountOf("t").card == s.AccountOf("t").card.Taken(Charge(MICROS_PER_CENT, 0))
    ensures s'.engine == Engine(s.engine.charges[ChargeKey(entryId) := ref], s.engine.payments[ref := Payment("t", 1)])
  {
    var s1, es1 := CheckRun(s0, s, es, c, entryId);
    var s2, es2 := TakeRun(s0, s1, es1, c, entryId, ref);
    s', es' := CountRun(s0, s2, es2, c, entryId);
  }

  lemma RunOn(
      s0: State, s: State, es: seq<BillingEvent>, e1: BillingEvent, e2: BillingEvent, e3: BillingEvent, s': State)
    returns (es': seq<BillingEvent>)
    requires s == After(s0, es) && Enabled(s, e1) && Enabled(Step(s, e1), e2) && Enabled(Step(Step(s, e1), e2), e3)
    requires s' == Step(Step(Step(s, e1), e2), e3)
    ensures s' == After(s0, es')
  {
    Extend3(s0, es, s, e1, e2, e3);
    es' := es + [e1, e2, e3];
  }

  lemma TakeRun(s0: State, s: State, es: seq<BillingEvent>, c: CallId, entryId: string, ref: Ref)
    returns (s': State, es': seq<BillingEvent>)
    requires s == After(s0, es)
    requires c + 1 == |s.runs| == |s.mutex.calls| && s.mutex.calls[c].phase == Running
    requires s.runs[c] == Run("t", 0, entryId, Checked(ONE_CENT)) && s.AccountOf("t").log == []
    requires ChargeKey(entryId) !in s.engine.charges && ref !in s.engine.payments
    ensures s' == After(s0, es')
    ensures s' == s.(runs := s.runs[c := Run("t", 0, entryId, Declined)],
                     accounts := s.accounts["t" := s'.AccountOf("t")],
                     engine := Engine(s.engine.charges[ChargeKey(entryId) := ref],
                                      s.engine.payments[ref := Payment("t", 1)]))
    ensures var a := s.AccountOf("t");
      s'.AccountOf("t") == a.(streak := a.streak + 1, card := a.card.Taken(Charge(MICROS_PER_CENT, 0)))
  {
    s' := Step(Step(Step(s, Resumes(c, Clock(0))), Resumes(c, Quiet)), Resumes(c, Declines(Some(ref))));
    es' := RunOn(s0, s, es, Resumes(c, Clock(0)), Resumes(c, Quiet), Resumes(c, Declines(Some(ref))), s');
  }

  lemma CountRun(s0: State, s: State, es: seq<BillingEvent>, c: CallId, entryId: string)
    returns (s': State, es': seq<BillingEvent>)
    requires s == After(s0, es)
    requires c + 1 == |s.runs| == |s.mutex.calls| && s.mutex.calls[c] == Call("t", None, Running)
    requires s.mutex.tails == s.mutex.tails["t" := c]
    requires s.runs[c] == Run("t", 0, entryId, Declined) && s.AccountOf("t").failures + 1 < s.limit
    ensures s' == After(s0, es')
    ensures var n := s.AccountOf("t").failures + 1;
      && s'.runs == s.runs[c := Run("t", 0, entryId, Done(Failed(n)))]
      && s'.AccountOf("t") == s.AccountOf("t").(failures := n)
    ensures s'.limit == s.limit && s'.engine == s.engine
    ensures |s'.mutex.calls| == c + 1 && "t" !in s'.mutex.tails
  {
    s' := Step(Step(Step(s, Resumes(c, Quiet)), Resumes(c, Quiet)), Finishes(c));
    es' := RunOn(s0, s, es, Resumes(c, Quiet), Resumes(c, Quiet), Finishes(c), s');
  }
}
