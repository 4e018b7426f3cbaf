/** What each call of the session registry answers, and what it does to whom. */
module SessionAnswers {
  import opened OrderedMaps
  import opened SessionRegistry
  import opened SessionInvariants
  import opened SessionTheorems

  // ---- getOrCreate ----

  /** The one armed timer of `s` is due the idle timeout from now. */
  ghost predicate DueInFull(r: Registry, s: SessionId) {
    && s in r.timers.idleTimers && r.timers.idleTimers[s] in r.timers.armed
    && r.timers.armed[r.timers.idleTimers[s]] == Timer(s, r.timers.now + r.cfg.idleTimeoutMs)
  }

  /** In every reachable state, `getOrCreate` hits exactly when the session is registered, and then
      hands back that session's own runtime, which is neither disposed nor forgotten; the session is
      the most recently used, the others keep their order, and its timer starts anew. */
  lemma HitHandsBackOwnRuntime(cfg: Config, es: seq<Event>, s: SessionId, x: RuntimeId)
    ensures var r := After(Init(cfg), es);
      && (Looked(r, s).1 == Hit(x) <==> s in r.runtimes.vals && r.runtimes.vals[s] == x)
      && (Looked(r, s).1 == Hit(x) ==>
            var n := Looked(r, s).0;
            && x in r.ledger.home && r.ledger.home[x] == s
            && x !in r.ledger.disposed && x !in r.ledger.forgotten
            && n.runtimes.vals == r.runtimes.vals && n.flights == r.flights && n.ledger == r.ledger
            && n.runtimes.order == Without(r.runtimes.order, s) + [s]
            && DueInFull(n, s))
  {
    Reachable(cfg, es);
    if s in After(Init(cfg), es).runtimes.vals { HitIs(After(Init(cfg), es), s); }
  }

  lemma HitIs(r: Registry, s: SessionId)
    requires Inv(r) && s in r.runtimes.vals
    ensures Looked(r, s) == (HitOn(r, s), Hit(r.runtimes.vals[s]))
    ensures var n, x := HitOn(r, s), r.runtimes.vals[s];
      && x in r.ledger.home && r.ledger.home[x] == s && x !in r.ledger.disposed && x !in r.ledger.forgotten
      && n.runtimes.vals == r.runtimes.vals && n.flights == r.flights && n.ledger == r.ledger
      && n.runtimes.order == Without(r.runtimes.order, s) + [s]
      && DueInFull(n, s)
  {
    HitKeeps(r, s);
    assert InOnePlace(r.ledger, r.runtimes.vals, r.runtimes.vals[s]);
  }

  /** Otherwise it joins the wake of that session in flight, if there is one, and changes nothing; or
      it starts a wake that was not there before, for that session, which is then booting. */
  lemma ColdJoinsOrStarts(cfg: Config, es: seq<Event>, s: SessionId)
    requires s !in After(Init(cfg), es).runtimes.vals
    ensures var r := After(Init(cfg), es);
      var (n, found) := Looked(r, s);
      && (found.Joined? <==> exists w :: w in r.flights.wakes && r.flights.wakes[w].session == s)
      && (found.Joined? ==> n == r && found.wake in r.flights.wakes && r.flights.wakes[found.wake].session == s)
      && (!found.Joined? ==>
            && found.Started? && found.wake !in r.flights.wakes
            && n == r.(flights := n.flights)
            && n.flights.wakes == r.flights.wakes[found.wake := Wake(s, Booting)]
            && s in n.flights.inflight && n.flights.inflight[s] == found.wake)
  {
    Reachable(cfg, es);
    var r := After(Init(cfg), es);
    var keys := r.runtimes.vals.Keys;
    if s in r.flights.inflight { assert r.flights.inflight[s] in r.flights.wakes; }
    forall w | w in r.flights.wakes ensures Flying(r.flights, w, keys) { }
  }

  // ---- A wake's completion ----

  /** A wake that completes registers a new runtime for its session, alive and with its timer started,
      and settles; whatever else is evicted, the new one stays. */
  lemma CompletionRegisters(cfg: Config, es: seq<Event>, w: WakeId, busy: set<RuntimeId>)
    requires Enabled(After(Init(cfg), es), WakeFulfilled(w, busy))
    ensures var r := After(Init(cfg), es);
      var n, s, x := Step(r, WakeFulfilled(w, busy)), r.flights.wakes[w].session, r.ledger.next;
      && s in n.runtimes.vals && n.runtimes.vals[s] == x
      && x !in r.ledger.home && x in n.ledger.home && n.ledger.home[x] == s
      && x !in n.ledger.disposed && x !in n.ledger.forgotten
      && n.flights == r.flights.Settle(w)
      && s in n.timers.idleTimers && n.ledger.forgotten == r.ledger.forgotten
  {
    Reachable(cfg, es);
    var r := After(Init(cfg), es);
    RegisteredKeeps(r, w);
    var g, s := Registered(r, w), r.flights.wakes[w].session;
    EvictionTakes(g, s, busy);
    DisposedEachThins(g, Victims(g, s, busy));
    StepKeeps(r, WakeFulfilled(w, busy));
    var n := Step(r, WakeFulfilled(w, busy));
    assert InOnePlace(n.ledger, n.runtimes.vals, r.ledger.next);
  }

  /** A wake that fails registers nothing; once its `finally` has run, the next `getOrCreate` starts
      another. */
  lemma FailureAllowsAnother(cfg: Config, es: seq<Event>, w: WakeId)
    requires Enabled(After(Init(cfg), es), WakeRejected(w))
    ensures var r := After(Init(cfg), es);
      var s, n := r.flights.wakes[w].session, Step(r, WakeRejected(w));
      && n == r.(flights := n.flights) && Enabled(n, WakeFinally(w))
      && var f := Step(n, WakeFinally(w));
      && f == r.(flights := f.flights) && w !in f.flights.wakes && Looked(f, s).1.Started?
  {
    Reachable(cfg, es);
    var r := After(Init(cfg), es);
    assert Flying(r.flights, w, r.runtimes.vals.Keys);
  }

  // ---- dispose and forget ----

  /** `dispose` drops exactly that session, disposes its runtime if there is one, and stops its timer. */
  lemma DisposeDrops(cfg: Config, es: seq<Event>, s: SessionId)
    ensures var r := After(Init(cfg), es);
      var n := Step(r, Dispose(s));
      && n.runtimes.vals == r.runtimes.vals - {s} && s !in n.timers.idleTimers
      && n.ledger.disposed == r.ledger.disposed + (if s in r.runtimes.vals then [r.runtimes.vals[s]] else [])
      && n.ledger.forgotten == r.ledger.forgotten && n.flights == r.flights
  {
    Reachable(cfg, es);
    var r := After(Init(cfg), es);
    DroppedKeeps(r, s, Disposed(r, s));
  }

  /** `forget` drops exactly that session without disposing its runtime, and stops its timer. */
  lemma ForgetDrops(cfg: Config, es: seq<Event>, s: SessionId)
    ensures var r := After(Init(cfg), es);
      var n := Step(r, Forget(s));
      && n.runtimes.vals == r.runtimes.vals - {s} && s !in n.timers.idleTimers
      && n.ledger.forgotten == r.ledger.forgotten + (if s in r.runtimes.vals then [r.runtimes.vals[s]] else [])
      && n.ledger.disposed == r.ledger.disposed && n.flights == r.flights
  {
    Reachable(cfg, es);
    var r := After(Init(cfg), es);
    DroppedKeeps(r, s, Forgotten(r, s));
  }

  // ---- Idle timers ----

  /** Once the idle timeout has passed without a step, the timer of every registered session can fire,
      and disposes the session's runtime exactly when that is idle; a busy one it leaves, to look again
      after another timeout. */
  lemma IdleIsDisposedInTime(cfg: Config, es: seq<Event>, s: SessionId, busy: set<RuntimeId>)
    requires s in After(Init(cfg), es).runtimes.vals
    ensures var r := Step(After(Init(cfg), es), Tick(cfg.idleTimeoutMs));
      && s in r.timers.idleTimers && Enabled(r, TimerFires(r.timers.idleTimers[s], busy))
      && var n := Step(r, TimerFires(r.timers.idleTimers[s], busy));
      && s in r.runtimes.vals
      && (if r.runtimes.vals[s] in busy then n == r.(timers := n.timers) && DueInFull(n, s)
          else n.runtimes.vals == r.runtimes.vals - {s} && n.ledger.disposed == r.ledger.disposed + [r.runtimes.vals[s]])
  {
    Reachable(cfg, es);
    CfgIs(cfg, es);
    var before := After(Init(cfg), es);
    StepKeeps(before, Tick(cfg.idleTimeoutMs));
    var r := Step(before, Tick(cfg.idleTimeoutMs));
    assert s in before.timers.idleTimers.Keys;
    assert TimerFor(before.timers, s, cfg.idleTimeoutMs);
    var t := r.timers.idleTimers[s];
    FiredIs(r, t, busy);
    DroppedKeeps(r, s, Disposed(r, s));
  }
}
