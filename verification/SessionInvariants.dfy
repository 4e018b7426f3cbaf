/** What every step of the session registry keeps. */
module SessionInvariants {
  import opened OrderedMaps
  import opened SessionRegistry

  // ---- Timers ----

  ghost predicate TimerFor(t: Timers, s: SessionId, ms: nat) {
    && s in t.idleTimers && t.idleTimers[s] in t.armed
    && t.armed[t.idleTimers[s]].session == s
    && s in t.lastUse && t.lastUse[s] <= t.now
    && t.lastUse[s] + ms <= t.armed[t.idleTimers[s]].deadline <= t.now + ms
  }

  ghost predicate Live(t: Timers, i: TimerId) {
    && i in t.armed && i < t.next
    && t.armed[i].session in t.idleTimers && t.idleTimers[t.armed[i].session] == i
  }

  /** Exactly the sessions `keys` have a timer, each one armed timer and none stale; it is due
      no earlier than the idle timeout after the session's last use, and no later than that
      timeout from now. */
  ghost predicate TimersAgree(t: Timers, keys: set<SessionId>, ms: nat) {
    && t.idleTimers.Keys == keys
    && (forall s | s in t.idleTimers :: TimerFor(t, s, ms))
    && (forall i | i in t.armed :: Live(t, i))
  }

  lemma ClearAgrees(t: Timers, keys: set<SessionId>, ms: nat, s: SessionId)
    requires TimersAgree(t, keys, ms)
    ensures TimersAgree(t.Clear(s), keys - {s}, ms)
  {
    var c := t.Clear(s);
    forall i | i in c.armed ensures Live(c, i) { assert Live(t, i); }
    forall k | k in c.idleTimers ensures TimerFor(c, k, ms) {
      assert TimerFor(t, k, ms);
      if s in t.idleTimers { assert TimerFor(t, s, ms); }
    }
  }

  lemma ScheduleAgrees(t: Timers, keys: set<SessionId>, ms: nat, s: SessionId)
    requires TimersAgree(t, keys, ms) && s in t.lastUse && t.lastUse[s] <= t.now
    ensures TimersAgree(t.Schedule(s, ms), keys + {s}, ms)
  {
    ClearAgrees(t, keys, ms, s);
    var b := t.Clear(s);
    var c := t.Schedule(s, ms);
    forall i | i in c.armed ensures Live(c, i) {
      if i != b.next { assert Live(b, i); }
    }
    forall k | k in c.idleTimers ensures TimerFor(c, k, ms) {
      if k != s { assert TimerFor(b, k, ms); assert Live(b, b.idleTimers[k]); }
    }
  }

  lemma UseCommutes(t: Timers, ms: nat, s: SessionId)
    ensures t.Used(s).Schedule(s, ms) == t.Clear(s).Used(s).Schedule(s, ms)
    ensures t.Used(s).Clear(s).Schedule(s, ms) == t.Clear(s).Used(s).Schedule(s, ms)
  {
    var u := t.Clear(s).Used(s);
    assert t.Used(s).Clear(s) == u;
    assert u.Clear(s) == u;
  }

  /** Using a session re-arms its timer. */
  lemma UseAgrees(t: Timers, keys: set<SessionId>, ms: nat, s: SessionId)
    requires TimersAgree(t, keys, ms)
    ensures TimersAgree(t.Used(s).Schedule(s, ms), keys + {s}, ms)
    ensures t.Used(s).Clear(s).Schedule(s, ms) == t.Used(s).Schedule(s, ms)
  {
    ClearAgrees(t, keys, ms, s);
    UseCommutes(t, ms, s);
    NotingAgrees(t.Clear(s), keys - {s}, ms, s);
    ScheduleAgrees(t.Clear(s).Used(s), keys - {s}, ms, s);
    assert keys - {s} + {s} == keys + {s};
  }

  lemma NotingAgrees(t: Timers, keys: set<SessionId>, ms: nat, s: SessionId)
    requires TimersAgree(t, keys, ms) && s !in keys
    ensures TimersAgree(t.Used(s), keys, ms)
  {
    var u := t.Used(s);
    forall i | i in u.armed ensures Live(u, i) { assert Live(t, i); }
    forall k | k in u.idleTimers ensures TimerFor(u, k, ms) { assert TimerFor(t, k, ms); }
  }

  lemma TickAgrees(t: Timers, keys: set<SessionId>, ms: nat, d: nat)
    requires TimersAgree(t, keys, ms)
    ensures TimersAgree(t.(now := t.now + d), keys, ms)
  {
    var c := t.(now := t.now + d);
    forall i | i in c.armed ensures Live(c, i) { assert Live(t, i); }
    forall k | k in c.idleTimers ensures TimerFor(c, k, ms) { assert TimerFor(t, k, ms); }
  }

  // ---- Wakes ----

  ghost predicate Flying(f: Flights, w: WakeId, keys: set<SessionId>) {
    && w in f.wakes && w < f.next
    && f.wakes[w].session in f.inflight && f.inflight[f.wakes[w].session] == w
    && (f.wakes[w].phase == Booting ==> f.wakes[w].session !in keys)
  }

  /** `inflight` records exactly the running wakes, so no session has two; and a session whose
      wake has not yet registered its runtime is not among the registered `keys`. */
  ghost predicate SingleFlight(f: Flights, keys: set<SessionId>) {
    && (forall s | s in f.inflight :: f.inflight[s] in f.wakes && f.wakes[f.inflight[s]].session == s)
    && (forall w | w in f.wakes :: Flying(f, w, keys))
  }

  lemma FewerKeysFly(f: Flights, keys: set<SessionId>, keys': set<SessionId>)
    requires SingleFlight(f, keys) && keys' <= keys
    ensures SingleFlight(f, keys')
  {
    forall w | w in f.wakes ensures Flying(f, w, keys') { assert Flying(f, w, keys); }
  }

  lemma LaunchFlies(f: Flights, keys: set<SessionId>, s: SessionId)
    requires SingleFlight(f, keys) && s !in f.inflight && s !in keys
    ensures SingleFlight(f.Launch(s), keys)
  {
    var l := f.Launch(s);
    forall w | w in l.wakes ensures Flying(l, w, keys) {
      if w != f.next { assert Flying(f, w, keys); }
    }
  }

  lemma SettleFlies(f: Flights, keys: set<SessionId>, keys': set<SessionId>, w: WakeId)
    requires SingleFlight(f, keys) && w in f.wakes
    requires keys' <= keys + {f.wakes[w].session}
    ensures SingleFlight(f.Settle(w), keys')
  {
    var l := f.Settle(w);
    assert Flying(f, w, keys);
    forall v | v in l.wakes ensures Flying(l, v, keys') { assert Flying(f, v, keys); }
  }

  lemma FinishFlies(f: Flights, keys: set<SessionId>, w: WakeId)
    requires SingleFlight(f, keys) && w in f.wakes
    ensures SingleFlight(f.Finish(w), keys)
  {
    var l := f.Finish(w);
    assert Flying(f, w, keys);
    forall v | v in l.wakes ensures Flying(l, v, keys) { assert Flying(f, v, keys); }
  }

  // ---- Runtimes ----

  predicate IsRegistered(l: Ledger, vals: map<SessionId, RuntimeId>, x: RuntimeId) {
    x in l.home && l.home[x] in vals && vals[l.home[x]] == x
  }

  ghost predicate InOnePlace(l: Ledger, vals: map<SessionId, RuntimeId>, x: RuntimeId) {
    && (IsRegistered(l, vals, x) || x in l.disposed || x in l.forgotten)
    && !(IsRegistered(l, vals, x) && x in l.disposed)
    && !(IsRegistered(l, vals, x) && x in l.forgotten)
    && !(x in l.disposed && x in l.forgotten)
  }

  /** Every runtime a wake produced is in exactly one place: registered, disposed once, or
      forgotten once. */
  ghost predicate Conserved(l: Ledger, vals: map<SessionId, RuntimeId>) {
    && (forall x :: x in l.home <==> 0 <= x < l.next)
    && (forall x | x in l.home :: InOnePlace(l, vals, x))
    && (forall s | s in vals :: vals[s] in l.home && l.home[vals[s]] == s)
    && NoDup(l.disposed) && NoDup(l.forgotten)
    && (forall x | x in l.disposed :: x in l.home)
    && (forall x | x in l.forgotten :: x in l.home)
  }

  lemma DropConserves(l: Ledger, vals: map<SessionId, RuntimeId>, s: SessionId, l': Ledger)
    requires Conserved(l, vals) && s in vals
    requires || l' == l.(disposed := l.disposed + [vals[s]])
             || l' == l.(forgotten := l.forgotten + [vals[s]])
    ensures Conserved(l', vals - {s})
  {
    assert InOnePlace(l, vals, vals[s]);
    forall y | y in l'.home ensures InOnePlace(l', vals - {s}, y) {
      assert InOnePlace(l, vals, y);
    }
  }

  lemma ProduceConserves(l: Ledger, vals: map<SessionId, RuntimeId>, s: SessionId)
    requires Conserved(l, vals) && s !in vals
    ensures Conserved(l.(next := l.next + 1, home := l.home[l.next := s]), vals[s := l.next])
  {
    var g := l.(next := l.next + 1, home := l.home[l.next := s]);
    forall x | x in g.home ensures InOnePlace(g, vals[s := l.next], x) {
      if x != l.next { assert InOnePlace(l, vals, x); }
    }
  }

  // ---- Order ----

  /** The map's order is the order of last use. */
  ghost predicate OrderIsRecency(y: Recency, order: seq<SessionId>) {
    && RankedBy(order, y.rank)
    && (forall s | s in y.rank :: y.rank[s] < y.uses)
  }

  /** A key appended to the others as it is used has the highest rank. */
  lemma UsedIsLast(y: Recency, order: seq<SessionId>, s: SessionId)
    requires OrderIsRecency(y, order) && s !in order
    ensures OrderIsRecency(y.Used(s), order + [s])
  {
    var o := order + [s];
    forall i | 0 <= i < |o| ensures o[i] in y.Used(s).rank {
      if i < |order| { assert order[i] in y.rank; }
    }
  }

  // ---- The registry ----

  ghost predicate Inv(r: Registry) {
    && r.runtimes.Valid()
    && TimersAgree(r.timers, r.runtimes.vals.Keys, r.cfg.idleTimeoutMs)
    && SingleFlight(r.flights, r.runtimes.vals.Keys)
    && Conserved(r.ledger, r.runtimes.vals)
    && OrderIsRecency(r.recency, r.runtimes.order)
  }

  lemma DroppedKeeps(r: Registry, s: SessionId, d: Registry)
    requires Inv(r) && (d == Disposed(r, s) || d == Forgotten(r, s))
    ensures Inv(d)
    ensures d.runtimes == r.runtimes.Delete(s) && d.runtimes.vals == r.runtimes.vals - {s}
  {
    var keys := r.runtimes.vals.Keys;
    ClearAgrees(r.timers, keys, r.cfg.idleTimeoutMs, s);
    r.runtimes.DeleteValid(s);
    assert (r.runtimes.vals - {s}).Keys == keys - {s};
    WithoutRanked(r.runtimes.order, s, r.recency.rank);
    FewerKeysFly(r.flights, keys, keys - {s});
    if s in r.runtimes.vals {
      DropConserves(r.ledger, r.runtimes.vals, s, d.ledger);
    } else {
      assert r.runtimes.vals - {s} == r.runtimes.vals;
    }
  }

  lemma TouchedIs(m: OrderedMap<SessionId, RuntimeId>, s: SessionId)
    requires m.Valid() && s in m.vals
    ensures Touched(m, s).Valid()
    ensures Touched(m, s).vals == m.vals
    ensures Touched(m, s).order == Without(m.order, s) + [s]
    ensures s !in Without(m.order, s)
  {
    m.DeleteValid(s);
    m.Delete(s).SetValid(s, m.vals[s]);
    WithoutMembers(m.order, s);
  }

  lemma HitKeeps(r: Registry, s: SessionId)
    requires Inv(r) && s in r.runtimes.vals
    ensures Inv(HitOn(r, s))
    ensures HitOn(r, s).runtimes.vals == r.runtimes.vals
    ensures HitOn(r, s).runtimes.order == Without(r.runtimes.order, s) + [s]
  {
    var keys := r.runtimes.vals.Keys;
    UseAgrees(r.timers, keys, r.cfg.idleTimeoutMs, s);
    assert keys + {s} == keys;
    TouchedIs(r.runtimes, s);
    WithoutRanked(r.runtimes.order, s, r.recency.rank);
    UsedIsLast(r.recency, Without(r.runtimes.order, s), s);
  }

  /** A fulfilled wake registers a fresh runtime for a session that has none: it overwrites nothing. */
  lemma RegisteredKeeps(r: Registry, w: WakeId)
    requires Inv(r) && w in r.flights.wakes && r.flights.wakes[w].phase == Booting
    ensures r.flights.wakes[w].session !in r.runtimes.vals
    ensures Inv(Registered(r, w))
    ensures Registered(r, w).runtimes.order == r.runtimes.order + [r.flights.wakes[w].session]
    ensures Registered(r, w).runtimes.vals == r.runtimes.vals[r.flights.wakes[w].session := r.ledger.next]
  {
    var s := r.flights.wakes[w].session;
    var keys := r.runtimes.vals.Keys;
    assert Flying(r.flights, w, keys);
    UseAgrees(r.timers, keys, r.cfg.idleTimeoutMs, s);
    r.runtimes.SetValid(s, r.ledger.next);
    assert Registered(r, w).runtimes.vals.Keys == keys + {s};
    UsedIsLast(r.recency, r.runtimes.order, s);
    SettleFlies(r.flights, keys, keys + {s}, w);
    ProduceConserves(r.ledger, r.runtimes.vals, s);
  }

  /** A timer that fires finds its session registered; whatever it then does is what rescheduling
      or disposing would do had the timer never left the event loop's list. */
  lemma FiredIs(r: Registry, t: TimerId, busy: set<RuntimeId>)
    requires Inv(r) && t in r.timers.armed
    ensures var s := r.timers.armed[t].session;
      && s in r.runtimes.vals
      && Fired(r, t, busy) ==
         if r.runtimes.vals[s] in busy then r.(timers := r.timers.Schedule(s, r.cfg.idleTimeoutMs))
         else Disposed(r, s)
  {
    FiresRegistered(r, t);
    if r.runtimes.vals[r.timers.armed[t].session] in busy { FiredReschedules(r, t, busy); } else { FiredDisposes(r, t, busy); }
  }

  lemma FiresRegistered(r: Registry, t: TimerId)
    requires Inv(r) && t in r.timers.armed
    ensures var s := r.timers.armed[t].session;
      s in r.runtimes.vals && s in r.timers.idleTimers && r.timers.idleTimers[s] == t
  {
    assert Live(r.timers, t);
    assert r.timers.armed[t].session in r.runtimes.vals.Keys;
  }

  lemma FiredReschedules(r: Registry, t: TimerId, busy: set<RuntimeId>)
    requires t in r.timers.armed
    requires var s := r.timers.armed[t].session; s in r.timers.idleTimers && r.timers.idleTimers[s] == t
    requires var s := r.timers.armed[t].session; s in r.runtimes.vals && r.runtimes.vals[s] in busy
    ensures Fired(r, t, busy) == r.(timers := r.timers.Schedule(r.timers.armed[t].session, r.cfg.idleTimeoutMs))
  {
    ExpiredThenCleared(r.timers, t);
  }

  lemma FiredDisposes(r: Registry, t: TimerId, busy: set<RuntimeId>)
    requires t in r.timers.armed
    requires var s := r.timers.armed[t].session; s in r.timers.idleTimers && r.timers.idleTimers[s] == t
    requires var s := r.timers.armed[t].session; s in r.runtimes.vals && r.runtimes.vals[s] !in busy
    ensures Fired(r, t, busy) == Disposed(r, r.timers.armed[t].session)
  {
    ExpiredThenCleared(r.timers, t);
  }

  lemma ExpiredThenCleared(t: Timers, i: TimerId)
    requires i in t.armed && t.armed[i].session in t.idleTimers && t.idleTimers[t.armed[i].session] == i
    ensures t.Expire(i).Clear(t.armed[i].session) == t.Clear(t.armed[i].session)
  {
  }

  lemma FiredKeeps(r: Registry, t: TimerId, busy: set<RuntimeId>)
    requires Inv(r) && t in r.timers.armed
    ensures Inv(Fired(r, t, busy))
  {
    FiredIs(r, t, busy);
    var s := r.timers.armed[t].session;
    if r.runtimes.vals[s] in busy {
      var keys := r.runtimes.vals.Keys;
      assert TimerFor(r.timers, s, r.cfg.idleTimeoutMs);
      ScheduleAgrees(r.timers, keys, r.cfg.idleTimeoutMs, s);
      assert keys + {s} == keys;
    } else {
      DroppedKeeps(r, s, Disposed(r, s));
    }
  }

  lemma {:induction false} DisposedEachKeeps(r: Registry, ids: seq<SessionId>)
    requires Inv(r)
    ensures Inv(DisposedEach(r, ids))
    decreases |ids|
  {
    if ids != [] {
      DroppedKeeps(r, ids[0], Disposed(r, ids[0]));
      DisposedEachKeeps(Disposed(r, ids[0]), ids[1..]);
    }
  }

  lemma StepKeeps(r: Registry, e: Event)
    requires Inv(r) && Enabled(r, e)
    ensures Inv(Step(r, e))
  {
    var keys := r.runtimes.vals.Keys;
    match e
    case GetOrCreate(s) =>
      if s in r.runtimes.vals { HitKeeps(r, s); }
      else if s !in r.flights.inflight { LaunchFlies(r.flights, keys, s); }
    case WakeFulfilled(w, busy) =>
      RegisteredKeeps(r, w);
      var g := Registered(r, w);
      DisposedEachKeeps(g, Victims(g, r.flights.wakes[w].session, busy));
    case WakeRejected(w) => SettleFlies(r.flights, keys, keys, w);
    case WakeFinally(w) => FinishFlies(r.flights, keys, w);
    case Dispose(s) => DroppedKeeps(r, s, Disposed(r, s));
    case Forget(s) => DroppedKeeps(r, s, Forgotten(r, s));
    case DisposeAll => DisposedEachKeeps(r, r.runtimes.order);
    case TimerFires(t, busy) => FiredKeeps(r, t, busy);
    case Tick(ms) => TickAgrees(r.timers, keys, r.cfg.idleTimeoutMs, ms);
  }

  /** The invariant holds after every list of events. */
  lemma {:induction false} Reachable(cfg: Config, es: seq<Event>)
    ensures Inv(After(Init(cfg), es))
    decreases |es|
  {
    if es != [] {
      Reachable(cfg, es[..|es| - 1]);
      var before := After(Init(cfg), es[..|es| - 1]);
      if Enabled(before, es[|es| - 1]) { StepKeeps(before, es[|es| - 1]); }
    }
  }
}
