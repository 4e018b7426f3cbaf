/** The in-memory store behind auto-charge: configuration, charge log and failure counter. */
module AutoChargeStore {
  import opened Options

  type Tenant = string

  const DAY_MS: int := 24 * 60 * 60 * 1000
  const MONTH_MS: int := 30 * DAY_MS

  datatype Config = Config(enabled: bool, threshold: int, amount: int, dailyCap: int, monthlyCap: int)
  datatype Patch = Patch(enabled: Option<bool>, threshold: Option<int>, amount: Option<int>)
  datatype Charge = Charge(amount: int, at: int)

  /** A tenant patched before it was ever set up starts switched off, with zero caps. */
  const BLANK := Config(false, 0, 0, 0, 0)

  function Patched(c: Option<Config>, p: Patch): Config {
    var base := if c.Some? then c.value else BLANK;
    base.(enabled := if p.enabled.Some? then p.enabled.value else base.enabled,
          threshold := if p.threshold.Some? then p.threshold.value else base.threshold,
          amount := if p.amount.Some? then p.amount.value else base.amount)
  }

  function Disabled(c: Option<Config>): Option<Config> {
    if c.Some? then Some(c.value.(enabled := false)) else None
  }

  /** The total charged strictly after `since`. */
  function SumSince(log: seq<Charge>, since: int): int {
    if log == [] then 0
    else SumSince(log[..|log| - 1], since) + (if log[|log| - 1].at > since then log[|log| - 1].amount else 0)
  }

  /** The total charged in the window `(start, start + width]`. */
  function WindowSum(log: seq<Charge>, start: int, width: int): int {
    if log == [] then 0
    else
      var c := log[|log| - 1];
      WindowSum(log[..|log| - 1], start, width) + (if start < c.at <= start + width then c.amount else 0)
  }

  ghost predicate Positive(log: seq<Charge>) {
    forall i | 0 <= i < |log| :: log[i].amount > 0
  }

  /** A window's total is at most the total since any earlier time. */
  lemma {:induction false} WindowWithin(log: seq<Charge>, start: int, width: int, since: int)
    requires Positive(log) && since <= start
    ensures 0 <= WindowSum(log, start, width) <= SumSince(log, since)
  {
    if log != [] { WindowWithin(log[..|log| - 1], start, width, since); }
  }

  /** The rolling window of width `w` ending at any time stays within the cap. A negative cap
      admits nothing. */
  ghost predicate CapHolds(log: seq<Charge>, w: int, cap: int) {
    forall s: int :: WindowSum(log, s, w) <= if cap < 0 then 0 else cap
  }

  /** A charge that passed the check at time `now` keeps the cap in every window, wherever the
      clock stood when the earlier ones were logged. */
  lemma CheckedChargeKeepsCap(log: seq<Charge>, w: nat, cap: int, amount: int, now: int)
    requires Positive(log) && CapHolds(log, w, cap)
    requires SumSince(log, now - w) + amount <= cap
    ensures CapHolds(log + [Charge(amount, now)], w, cap)
  {
    var log' := log + [Charge(amount, now)];
    assert log'[..|log|] == log;
    forall s: int ensures WindowSum(log', s, w) <= if cap < 0 then 0 else cap {
      if s < now <= s + w { WindowWithin(log, s, w, now - w); }
    }
  }

  class InMemoryAutoChargeStore {
    var configs: map<Tenant, Config>
    var charges: map<Tenant, seq<Charge>>
    var failures: map<Tenant, int>

    function ConfigOf(t: Tenant): Option<Config>
      reads this
    {
      if t in configs then Some(configs[t]) else None
    }

    function LogOf(t: Tenant): seq<Charge>
      reads this
    {
      if t in charges then charges[t] else []
    }

    function FailuresOf(t: Tenant): int
      reads this
    {
      if t in failures then failures[t] else 0
    }

    constructor ()
      ensures configs == map[] && charges == map[] && failures == map[]
    {
      configs, charges, failures := map[], map[], map[];
    }

    method SetConfig(t: Tenant, c: Config)
      modifies this`configs
      ensures configs == old(configs)[t := c]
    {
      configs := configs[t := c];
    }

    method UpdateConfig(t: Tenant, p: Patch) returns (next: Config)
      modifies this`configs
      ensures next == Patched(old(ConfigOf(t)), p) && configs == old(configs)[t := next]
    {
      next := if t in configs then configs[t] else BLANK;
      if p.enabled.Some? { next := next.(enabled := p.enabled.value); }
      if p.threshold.Some? { next := next.(threshold := p.threshold.value); }
      if p.amount.Some? { next := next.(amount := p.amount.value); }
      configs := configs[t := next];
    }

    method Disable(t: Tenant)
      modifies this`configs
      ensures ConfigOf(t) == Disabled(old(ConfigOf(t)))
      ensures forall u | u != t :: ConfigOf(u) == old(ConfigOf(u))
    {
      if t in configs { configs := configs[t := configs[t].(enabled := false)]; }
    }

    method SumChargesSince(t: Tenant, since: int) returns (sum: int)
      ensures sum == SumSince(LogOf(t), since)
    {
      var log := LogOf(t);
      sum := 0;
      for i := 0 to |log|
        invariant sum == SumSince(log[..i], since)
      {
        assert log[..i + 1][..i] == log[..i];
        if log[i].at > since { sum := sum + log[i].amount; }
      }
      assert log[..|log|] == log;
    }

    method RecordCharge(t: Tenant, amount: int, at: int)
      modifies this`charges
      ensures charges == old(charges)[t := old(LogOf(t)) + [Charge(amount, at)]]
    {
      charges := charges[t := LogOf(t) + [Charge(amount, at)]];
    }

    method SetConsecutiveFailures(t: Tenant, n: int)
      modifies this`failures
      ensures failures == old(failures)[t := n]
    {
      failures := failures[t := n];
    }
  }
}
