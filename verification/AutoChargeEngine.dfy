/** `runLowBalance` as the engine's one method over its store. Run with nothing else in between, it
    does what its stretches do one after the other. */
module AutoChargeEngines {
  import opened Options
  import opened Money
  import opened AutoChargeStore
  import opened AutoCharge

  /** The world's answers to one run. */
  datatype Script = Script(now: int, charge: Io, credit: Io, notified: bool) {
    predicate Fits(amount: int) {
      && ((charge.Declines? && charge.took == None) || ((charge.Declines? || charge.Pays?) && CentsFromMicros(amount).Ok?))
      && (credit.Credited? || credit.CreditThrew?)
    }
  }

  function AnswerTo(pc: Pc, w: Script): Io {
    match pc
    case Checked(_) => Clock(w.now)
    case MonthOk(_, _) => w.charge
    case Crediting(_, _, _, _) => w.credit
    case Notifying(_) => Notified(w.notified)
    case _ => Quiet
  }

  function Left(pc: Pc): nat {
    match pc
    case Begin => 8
    case Checked(_) => 7
    case DayOk(_, _) => 6
    case MonthOk(_, _) => 5
    case Declined => 4
    case Paid(_, _, _, _) => 4
    case Counted(_) => 3
    case Crediting(_, _, _, _) => 3
    case Disabling(_) => 2
    case Recording(_, _, _, _) => 2
    case Notifying(_) => 1
    case Done(_) => 0
  }

  /** Every stretch that is left, in turn; stuck, and so unchanged, on an answer that does not fit. */
  function Finish(limit: nat, balance: int, a: Account, pc: Pc, w: Script): (Account, Pc)
    decreases Left(pc)
  {
    if !Answers(pc, AnswerTo(pc, w)) then (a, pc)
    else
      var (a', pc') := Advance(limit, balance, a, pc, AnswerTo(pc, w));
      Finish(limit, balance, a', pc', w)
  }

  class AutoChargeEngine {
    const maxConsecutiveFailures: nat
    const store: InMemoryAutoChargeStore

    constructor (maxConsecutiveFailures: nat, store: InMemoryAutoChargeStore)
      ensures this.maxConsecutiveFailures == maxConsecutiveFailures && this.store == store
    {
      this.maxConsecutiveFailures := maxConsecutiveFailures;
      this.store := store;
    }

    /** The tenant's records in the store. */
    ghost function AccountOf(t: Tenant): Account
      reads store
    {
      Fresh(store.ConfigOf(t)).(log := store.LogOf(t), failures := store.FailuresOf(t))
    }

    ghost predicate SameRecords(a: Account, b: Account) {
      a.config == b.config && a.log == b.log && a.failures == b.failures
    }

    method RunLowBalance(t: Tenant, balance: int, w: Script) returns (outcome: Outcome)
      requires store.ConfigOf(t).Some? ==> w.Fits(store.ConfigOf(t).value.amount)
      modifies store
      ensures var (a, pc) := Finish(maxConsecutiveFailures, balance, old(AccountOf(t)), Begin, w);
        pc == Done(outcome) && SameRecords(AccountOf(t), a)
    {
      ghost var N, a0 := maxConsecutiveFailures, AccountOf(t);
      if t !in store.configs || !store.configs[t].enabled { return SkippedDisabled; }
      var config := store.configs[t];
      if balance >= config.threshold { return SkippedAboveThreshold; }
      assert Finish(N, balance, a0, Begin, w) == Finish(N, balance, a0, Checked(config), w);
      var now := w.now;
      var chargedToday := store.SumChargesSince(t, now - DAY_MS);
      if chargedToday + config.amount > config.dailyCap { return SkippedDailyCap; }
      assert Finish(N, balance, a0, Checked(config), w) == Finish(N, balance, a0, DayOk(config, now), w);
      var chargedMonth := store.SumChargesSince(t, now - MONTH_MS);
      if chargedMonth + config.amount > config.monthlyCap {
        assert Finish(N, balance, a0, DayOk(config, now), w) == (a0, Done(SkippedMonthlyCap));
        return SkippedMonthlyCap;
      }
      assert Finish(N, balance, a0, DayOk(config, now), w) == Finish(N, balance, a0, MonthOk(config, now), w);
      if w.charge.Declines? {
        outcome := CountFailure(t, balance, config, now, w);
      } else {
        outcome := CreditAndRecord(t, balance, config, now, w);
      }
    }

    /** After a declined charge: count it, and disable auto-charge at the limit. */
    method CountFailure(t: Tenant, balance: int, config: Config, now: int, w: Script) returns (outcome: Outcome)
      requires w.Fits(config.amount) && w.charge.Declines?
      modifies store
      ensures var (a, pc) := Finish(maxConsecutiveFailures, balance, old(AccountOf(t)), MonthOk(config, now), w);
        pc == Done(outcome) && SameRecords(AccountOf(t), a)
    {
      ghost var N := maxConsecutiveFailures;
      ghost var a1 := Advance(N, balance, AccountOf(t), MonthOk(config, now), w.charge).0;
      assert Finish(N, balance, AccountOf(t), MonthOk(config, now), w) == Finish(N, balance, a1, Declined, w);
      var n := store.FailuresOf(t) + 1;
      assert Finish(N, balance, a1, Declined, w) == Finish(N, balance, a1, Counted(n), w);
      store.SetConsecutiveFailures(t, n);
      ghost var a2 := a1.(failures := n);
      if n >= maxConsecutiveFailures {
        assert Finish(N, balance, a1, Counted(n), w) == Finish(N, balance, a2, Disabling(n), w);
        store.Disable(t);
        ghost var a3 := a2.(config := Disabled(a2.config));
        assert Finish(N, balance, a2, Disabling(n), w) == Finish(N, balance, a3, Notifying(n), w);
        outcome := if w.notified then AutoDisabled(n) else Threw;
        assert Finish(N, balance, a3, Notifying(n), w) == (a3, Done(outcome));
      } else {
        outcome := Failed(n);
        assert Finish(N, balance, a1, Counted(n), w) == (a2, Done(outcome));
      }
    }

    /** After a successful charge: reset the counter, credit, and log it if the credit was new. */
    method CreditAndRecord(t: Tenant, balance: int, config: Config, now: int, w: Script) returns (outcome: Outcome)
      requires w.Fits(config.amount) && w.charge.Pays?
      modifies store
      ensures var (a, pc) := Finish(maxConsecutiveFailures, balance, old(AccountOf(t)), MonthOk(config, now), w);
        pc == Done(outcome) && SameRecords(AccountOf(t), a)
    {
      ghost var N, ref, isNew := maxConsecutiveFailures, w.charge.ref, w.charge.isNew;
      ghost var a1 := Advance(N, balance, AccountOf(t), MonthOk(config, now), w.charge).0;
      assert Finish(N, balance, AccountOf(t), MonthOk(config, now), w)
          == Finish(N, balance, a1, Paid(config, now, ref, isNew), w);
      store.SetConsecutiveFailures(t, 0);
      ghost var a2 := a1.(failures := 0);
      ghost var crediting := Crediting(config, now, ref, isNew);
      assert Finish(N, balance, a1, Paid(config, now, ref, isNew), w) == Finish(N, balance, a2, crediting, w);
      ghost var (a3, pc3) := Advance(N, balance, a2, crediting, w.credit);
      assert Finish(N, balance, a2, crediting, w) == Finish(N, balance, a3, pc3, w);
      if w.credit.CreditThrew? { return Threw; }
      if w.credit.applied {
        ghost var a4 := Advance(N, balance, a3, pc3, Quiet).0;
        assert Finish(N, balance, a3, pc3, w) == (a4, Done(ChargedAmount(config.amount)));
        store.RecordCharge(t, config.amount, now);
      }
      return ChargedAmount(config.amount);
    }
  }
}
