/** Why a run of auto-charge ends as it does, and what it takes for one to charge the card. */
module AutoChargeOutcomes {
  import opened Options
  import opened KeyedMutex
  import opened Money
  import opened PaymentEvents
  import opened AutoChargeStore
  import opened AutoCharge
  import opened AutoChargeInvariants
  import opened AutoChargeEngines

  // ---- Over all interleavings ----

  /** A run that works with a configuration found it enabled, and the balance below its threshold. */
  ghost predicate Warranted(run: Run) {
    HasConfig(run.pc) ==> run.pc.cfg.enabled && run.balance < run.pc.cfg.threshold
  }

  lemma {:induction false} OnlyBelowThreshold(limit: nat, configs: map<Tenant, Config>, es: seq<BillingEvent>, c: CallId)
    requires c < |After(Init(limit, configs), es).runs|
    ensures Warranted(After(Init(limit, configs), es).runs[c])
    decreases |es|
  {
    if es != [] {
      var s, e := After(Init(limit, configs), es[..|es| - 1]), es[|es| - 1];
      if c < |s.runs| { OnlyBelowThreshold(limit, configs, es[..|es| - 1], c); }
      if Enabled(s, e) { StaysWarranted(s, e, c); }
    }
  }

  lemma StaysWarranted(s: State, e: BillingEvent, c: CallId)
    requires Enabled(s, e) && c < |Step(s, e).runs| && (c < |s.runs| ==> Warranted(s.runs[c]))
    ensures Warranted(Step(s, e).runs[c])
  {
  }

  /** The card is charged only by a run of an enabled configuration whose threshold the balance was
      below, and whose two caps the charge fits under. */
  lemma ChargesAreWarranted(limit: nat, configs: map<Tenant, Config>, es: seq<BillingEvent>, c: CallId, io: Io)
    requires 1 <= limit && Enabled(After(Init(limit, configs), es), Resumes(c, io))
    requires var run := After(Init(limit, configs), es).runs[c]; run.pc.MonthOk? && NewPayment(io).Some?
    ensures var s := After(Init(limit, configs), es);
      var run, log := s.runs[c], s.AccountOf(s.runs[c].tenant).log;
      var cfg, now := run.pc.cfg, run.pc.now;
      && cfg.enabled && run.balance < cfg.threshold
      && SumSince(log, now - 86_400_000) + cfg.amount <= cfg.dailyCap
      && SumSince(log, now - 2_592_000_000) + cfg.amount <= cfg.monthlyCap
  {
    OnlyBelowThreshold(limit, configs, es, c);
    Reachable(limit, configs, es);
    FitsUnderCaps(After(Init(limit, configs), es), c);
  }

  lemma FitsUnderCaps(s: State, c: CallId)
    requires Inv(s) && c < |s.runs| && s.mutex.calls[c].phase == Running && s.runs[c].pc.MonthOk?
    ensures ChecksPassed(s.AccountOf(s.runs[c].tenant).log, s.runs[c].pc.cfg, s.runs[c].pc.now)
  {
    assert RunOk(s, c);
    assert AccountOk(s.limit, s.AccountOf(s.runs[c].tenant), PcOf(s, s.runs[c].tenant));
  }

  /** Each way to skip is reported exactly when its own cause holds as it is looked at, and a run keeps
      working with the configuration it read, whose amount it reports when it has charged. */
  lemma SkippedExactly(s: State, c: CallId, io: Io)
    requires Enabled(s, Resumes(c, io))
    ensures var run, pc' := s.runs[c], Step(s, Resumes(c, io)).runs[c].pc;
      var a, pc := s.AccountOf(run.tenant), run.pc;
      && (pc' == Done(SkippedDisabled) <==> pc == Begin && (a.config == None || !a.config.value.enabled))
      && (pc' == Done(SkippedAboveThreshold) <==>
            pc == Begin && a.config.Some? && a.config.value.enabled && a.config.value.threshold <= run.balance)
      && (pc' == Done(SkippedDailyCap) <==>
            pc.Checked? && pc.cfg.dailyCap < SumSince(a.log, io.now - 86_400_000) + pc.cfg.amount)
      && (pc' == Done(SkippedMonthlyCap) <==>
            pc.DayOk? && pc.cfg.monthlyCap < SumSince(a.log, pc.now - 2_592_000_000) + pc.cfg.amount)
      && (pc == Begin && HasConfig(pc') ==> a.config == Some(pc'.cfg))
      && (HasConfig(pc) && HasConfig(pc') ==> pc'.cfg == pc.cfg)
      && (forall n :: pc' == Done(ChargedAmount(n)) <==>
            ((pc.Crediting? && io == Credited(false)) || pc.Recording?) && n == pc.cfg.amount)
  {
  }

  // ---- Sums ----

  function TotalOf(log: seq<Charge>): int {
    if log == [] then 0 else TotalOf(log[..|log| - 1]) + log[|log| - 1].amount
  }

  /** Of a log, the sum since a time is the total of the charges strictly later. */
  lemma {:induction false} SumIsOfLater(log: seq<Charge>, later: seq<Charge>, since: int)
    requires forall i | 0 <= i < |log| :: log[i].at <= since
    requires forall i | 0 <= i < |later| :: since < later[i].at
    ensures SumSince(log + later, since) == TotalOf(later)
    decreases |log| + |later|
  {
    if later != [] {
      SumIsOfLater(log, later[..|later| - 1], since);
      assert (log + later)[..|log + later| - 1] == log + later[..|later| - 1];
    } else if log != [] {
      SumIsOfLater(log[..|log| - 1], [], since);
      assert (log + later)[..|log| - 1] == log[..|log| - 1] + [];
    }
  }

  // ---- Patches ----

  /** A patch takes effect on the next run: switched off, it skips; with a threshold, it goes on exactly
      when enabled and below it, and then at the amount patched. What a patch does not name stays. */
  lemma PatchTakesEffect(limit: nat, balance: int, a: Account, p: Patch)
    ensures var pc := Advance(limit, balance, PatchedAccount(a, p), Begin, Quiet).1;
      var before := if a.config.Some? then a.config.value else Config(false, 0, 0, 0, 0);
      && (p.enabled == Some(false) ==> pc == Done(SkippedDisabled))
      && (p.enabled == Some(true) ==> pc != Done(SkippedDisabled))
      && (p.threshold.Some? && HasConfig(pc) ==> balance < p.threshold.value)
      && (p.threshold.Some? && pc == Done(SkippedAboveThreshold) ==> p.threshold.value <= balance)
      && (HasConfig(pc) ==>
            && pc.cfg.amount == (if p.amount.Some? then p.amount.value else before.amount)
            && pc.cfg.threshold == (if p.threshold.Some? then p.threshold.value else before.threshold)
            && pc.cfg.dailyCap == before.dailyCap && pc.cfg.monthlyCap == before.monthlyCap)
      && (p.enabled == None ==> (pc == Done(SkippedDisabled) <==> !before.enabled))
  {
  }

  // ---- Undisturbed ----

  /** What a run comes to, in terms of the tenant's records, the event's balance, and the world's
      answers. */
  lemma OutcomeExactly(limit: nat, balance: int, a: Account, w: Script)
    requires a.config.Some? ==> w.Fits(a.config.value.amount)
    ensures var (b, pc) := Finish(limit, balance, a, Begin, w);
      if a.config == None || !a.config.value.enabled then b == a && pc == Done(SkippedDisabled)
      else
        var cfg := a.config.value;
        if cfg.threshold <= balance then b == a && pc == Done(SkippedAboveThreshold)
        else if SumSince(a.log, w.now - 86_400_000) + cfg.amount > cfg.dailyCap then b == a && pc == Done(SkippedDailyCap)
        else if SumSince(a.log, w.now - 2_592_000_000) + cfg.amount > cfg.monthlyCap then b == a && pc == Done(SkippedMonthlyCap)
        else if w.charge.Declines? then
          var n := a.failures + 1;
          && b.failures == n && b.log == a.log
          && b.config == (if n >= limit then Some(cfg.(enabled := false)) else a.config)
          && pc == Done(if n < limit then Failed(n) else if w.notified then AutoDisabled(n) else Threw)
        else
          && b.failures == 0 && b.config == a.config
          && b.log == (if w.credit == Credited(true) then a.log + [Charge(cfg.amount, w.now)] else a.log)
          && pc == Done(if w.credit.Credited? then ChargedAmount(cfg.amount) else Threw)
  {
    if a.config.Some? && a.config.value.enabled && balance < a.config.value.threshold {
      var cfg := a.config.value;
      assert Finish(limit, balance, a, Begin, w) == Finish(limit, balance, a, Checked(cfg), w);
      if SumSince(a.log, w.now - DAY_MS) + cfg.amount <= cfg.dailyCap {
        assert Finish(limit, balance, a, Checked(cfg), w) == Finish(limit, balance, a, DayOk(cfg, w.now), w);
        if SumSince(a.log, w.now - MONTH_MS) + cfg.amount <= cfg.monthlyCap {
          assert Finish(limit, balance, a, DayOk(cfg, w.now), w) == Finish(limit, balance, a, MonthOk(cfg, w.now), w);
          if w.charge.Declines? { AfterDecline(limit, balance, a, cfg, w); } else { AfterPayment(limit, balance, a, cfg, w); }
        } else {
          assert Finish(limit, balance, a, DayOk(cfg, w.now), w) == (a, Done(SkippedMonthlyCap));
        }
      }
    }
  }

  lemma AfterDecline(limit: nat, balance: int, a: Account, cfg: Config, w: Script)
    requires w.Fits(cfg.amount) && w.charge.Declines? && a.config == Some(cfg)
    ensures var (b, pc) := Finish(limit, balance, a, MonthOk(cfg, w.now), w);
      var n := a.failures + 1;
      && b.failures == n && b.log == a.log
      && b.config == (if n >= limit then Some(cfg.(enabled := false)) else a.config)
      && pc == Done(if n < limit then Failed(n) else if w.notified then AutoDisabled(n) else Threw)
  {
    var n := a.failures + 1;
    var a1 := Advance(limit, balance, a, MonthOk(cfg, w.now), w.charge).0;
    assert Finish(limit, balance, a, MonthOk(cfg, w.now), w) == Finish(limit, balance, a1, Declined, w);
    assert Finish(limit, balance, a1, Declined, w) == Finish(limit, balance, a1, Counted(n), w);
    var a2 := a1.(failures := n);
    if n >= limit {
      assert Finish(limit, balance, a1, Counted(n), w) == Finish(limit, balance, a2, Disabling(n), w);
      var a3 := a2.(config := Disabled(a2.config));
      assert Finish(limit, balance, a2, Disabling(n), w) == Finish(limit, balance, a3, Notifying(n), w);
      assert Finish(limit, balance, a3, Notifying(n), w) == (a3, Done(if w.notified then AutoDisabled(n) else Threw));
    } else {
      assert Finish(limit, balance, a1, Counted(n), w) == (a2, Done(Failed(n)));
    }
  }

  lemma AfterPayment(limit: nat, balance: int, a: Account, cfg: Config, w: Script)
    requires w.Fits(cfg.amount) && w.charge.Pays? && a.config == Some(cfg)
    ensures var (b, pc) := Finish(limit, balance, a, MonthOk(cfg, w.now), w);
      && b.failures == 0 && b.config == a.config
      && b.log == (if w.credit == Credited(true) then a.log + [Charge(cfg.amount, w.now)] else a.log)
      && pc == Done(if w.credit.Credited? then ChargedAmount(cfg.amount) else Threw)
  {
    var a1 := Advance(limit, balance, a, MonthOk(cfg, w.now), w.charge).0;
    var paid := Paid(cfg, w.now, w.charge.ref, w.charge.isNew);
    assert Finish(limit, balance, a, MonthOk(cfg, w.now), w) == Finish(limit, balance, a1, paid, w);
    var a2, crediting := a1.(failures := 0), Crediting(cfg, w.now, w.charge.ref, w.charge.isNew);
    assert Finish(limit, balance, a1, paid, w) == Finish(limit, balance, a2, crediting, w);
    var (a3, pc3) := Advance(limit, balance, a2, crediting, w.credit);
    assert Finish(limit, balance, a2, crediting, w) == Finish(limit, balance, a3, pc3, w);
    if pc3.Recording? {
      var a4 := Advance(limit, balance, a3, pc3, Quiet).0;
      assert Finish(limit, balance, a3, pc3, w) == (a4, Done(ChargedAmount(cfg.amount)));
    } else {
      assert Finish(limit, balance, a3, pc3, w) == (a3, pc3);
    }
  }
}
