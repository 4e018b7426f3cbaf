/** What the session registry guarantees over whole runs. */
module SessionTheorems {
  import opened OrderedMaps
  import opened SessionRegistry
  import opened SessionInvariants

  // ---- Single flight ----

  /** At most one wake per session runs at a time, and none is booting while the session is
      registered. */
  lemma OneWakePerSession(cfg: Config, es: seq<Event>, v: WakeId, w: WakeId)
    requires var f := After(Init(cfg), es).flights;
      v in f.wakes && w in f.wakes && f.wakes[v].session == f.wakes[w].session
    ensures v == w
    ensures var r := After(Init(cfg), es);
      r.flights.wakes[w].phase == Booting ==> r.flights.wakes[w].session !in r.runtimes.vals
  {
    Reachable(cfg, es);
    var r := After(Init(cfg), es);
    assert Flying(r.flights, v, r.runtimes.vals.Keys) && Flying(r.flights, w, r.runtimes.vals.Keys);
  }

  /** A step that starts a wake does so for a session that is not registered and has no wake. */
  lemma WakesStartAlone(cfg: Config, es: seq<Event>, e: Event, w: WakeId)
    requires var r := After(Init(cfg), es);
      Enabled(r, e) && w !in r.flights.wakes && w in Step(r, e).flights.wakes
    ensures var r := After(Init(cfg), es);
      var s := Step(r, e).flights.wakes[w].session;
      s !in r.runtimes.vals && forall v | v in r.flights.wakes :: r.flights.wakes[v].session != s
  {
    Reachable(cfg, es);
    var r := After(Init(cfg), es);
    if !e.GetOrCreate? {
      StepFlights(r, e);
      assert false;
    }
    forall v | v in r.flights.wakes ensures r.flights.wakes[v].session != e.s {
      assert Flying(r.flights, v, r.runtimes.vals.Keys);
    }
  }

  /** Only `getOrCreate` starts wakes. */
  lemma StepFlights(r: Registry, e: Event)
    requires Enabled(r, e) && !e.GetOrCreate?
    ensures Step(r, e).flights.wakes.Keys <= r.flights.wakes.Keys
  {
    match e {
      case WakeFulfilled(x, busy) =>
        DisposedEachThins(Registered(r, x), Victims(Registered(r, x), r.flights.wakes[x].session, busy));
      case DisposeAll => DisposedEachThins(r, r.runtimes.order);
      case _ =>
    }
  }

  // ---- Capacity eviction ----

  /** `e` is `r` with some of its runtimes disposed. */
  ghost predicate Thinned(r: Registry, e: Registry) {
    && e == r.(runtimes := e.runtimes, timers := e.timers, ledger := r.ledger.(disposed := e.ledger.disposed))
    && e.timers.lastUse == r.timers.lastUse && e.timers.now == r.timers.now
    && r.ledger.disposed <= e.ledger.disposed
    && (forall k | k in e.runtimes.vals :: k in r.runtimes.vals && e.runtimes.vals[k] == r.runtimes.vals[k])
  }

  lemma DisposedThins(r: Registry, s: SessionId)
    ensures Thinned(r, Disposed(r, s))
  {
  }

  lemma {:induction false} DisposedEachThins(r: Registry, ids: seq<SessionId>)
    ensures Thinned(r, DisposedEach(r, ids))
    decreases |ids|
  {
    if ids != [] {
      DisposedThins(r, ids[0]);
      DisposedEachThins(Disposed(r, ids[0]), ids[1..]);
    }
  }

  /** Disposing each of some registered sessions leaves exactly the others. */
  lemma {:induction false} DisposedEachIs(r: Registry, ids: seq<SessionId>)
    requires r.runtimes.Valid() && NoDup(ids) && forall k | k in ids :: k in r.runtimes.vals
    ensures DisposedEach(r, ids).runtimes.Valid()
    ensures DisposedEach(r, ids).runtimes.Size() == r.runtimes.Size() - |ids|
    ensures forall k :: k in DisposedEach(r, ids).runtimes.vals <==> k in r.runtimes.vals && k !in ids
    decreases |ids|
  {
    if ids != [] {
      var k0, rest := ids[0], ids[1..];
      assert ids == [k0] + rest;
      var d := Disposed(r, k0);
      r.runtimes.DeleteValid(k0);
      assert d.runtimes == r.runtimes.Delete(k0);
      DisposedEachIs(d, rest);
    }
  }

  lemma {:induction false} DisposedEachLogs(r: Registry, ids: seq<SessionId>, k: SessionId)
    requires k in r.runtimes.vals && k in ids
    ensures r.runtimes.vals[k] in DisposedEach(r, ids).ledger.disposed
    decreases |ids|
  {
    var d := Disposed(r, ids[0]);
    if k == ids[0] {
      DisposedEachThins(d, ids[1..]);
      assert d.ledger.disposed[|r.ledger.disposed|] == r.runtimes.vals[k];
    } else {
      DisposedEachLogs(d, ids[1..], k);
    }
  }

  lemma {:induction false} CandidatesAre(
      order: seq<SessionId>, m: OrderedMap<SessionId, RuntimeId>, keep: SessionId, busy: set<RuntimeId>)
    requires NoDup(order)
    ensures var c := Candidates(order, m, keep, busy);
      && NoDup(c)
      && (forall k | k in c :: k in order && Evictable(m, k, keep, busy))
      && (forall k | k in order && Evictable(m, k, keep, busy) :: k in c)
  {
    if order != [] { CandidatesAre(order[1..], m, keep, busy); }
  }

  lemma {:induction false} CandidatesRanked(
      order: seq<SessionId>, m: OrderedMap<SessionId, RuntimeId>, keep: SessionId, busy: set<RuntimeId>,
      rank: map<SessionId, nat>)
    requires NoDup(order) && RankedBy(order, rank)
    ensures RankedBy(Candidates(order, m, keep, busy), rank)
  {
    if order != [] {
      CandidatesRanked(order[1..], m, keep, busy, rank);
      CandidatesAre(order[1..], m, keep, busy);
      var rest := Candidates(order[1..], m, keep, busy);
      forall i | 0 <= i < |rest| ensures rank[order[0]] < rank[rest[i]] {
        assert rest[i] in order[1..];
        var j :| 0 <= j < |order[1..]| && order[1..][j] == rest[i];
        assert order[j + 1] == rest[i];
      }
    }
  }

  /** Eviction takes idle runtimes only, never the kept one, disposing each; it leaves the rest;
      it takes no more than the registry is over its cap, and fewer only when no other idle
      runtime is left. */
  lemma EvictionTakes(r: Registry, keep: SessionId, busy: set<RuntimeId>)
    requires r.runtimes.Valid()
    ensures var e := Evicted(r, keep, busy);
      && e.runtimes.Valid()
      && (forall k | k in e.runtimes.vals :: k in r.runtimes.vals && e.runtimes.vals[k] == r.runtimes.vals[k])
      && (forall k | k in r.runtimes.vals && k !in e.runtimes.vals ::
            Evictable(r.runtimes, k, keep, busy) && r.runtimes.vals[k] in e.ledger.disposed)
      && (e.runtimes.Size() <= r.cfg.maxRuntimes || forall q :: !Evictable(e.runtimes, q, keep, busy))
      && (r.runtimes.Size() <= r.cfg.maxRuntimes ==> e == r)
      && (r.runtimes.Size() >= r.cfg.maxRuntimes ==> e.runtimes.Size() >= r.cfg.maxRuntimes)
  {
    var c := Candidates(r.runtimes.order, r.runtimes, keep, busy);
    var v := Victims(r, keep, busy);
    CandidatesAre(r.runtimes.order, r.runtimes, keep, busy);
    DisposedEachIs(r, v);
    DisposedEachThins(r, v);
    forall k | k in r.runtimes.vals && k !in Evicted(r, keep, busy).runtimes.vals
      ensures Evictable(r.runtimes, k, keep, busy) && r.runtimes.vals[k] in Evicted(r, keep, busy).ledger.disposed
    {
      DisposedEachLogs(r, v, k);
    }
  }

  /** Every runtime eviction takes was used before every idle one it leaves. */
  lemma EvictionIsLeastRecent(r: Registry, keep: SessionId, busy: set<RuntimeId>, k: SessionId, q: SessionId)
    requires r.runtimes.Valid() && OrderIsRecency(r.recency, r.runtimes.order)
    requires k in r.runtimes.vals && k !in Evicted(r, keep, busy).runtimes.vals
    requires Evictable(Evicted(r, keep, busy).runtimes, q, keep, busy)
    ensures k in r.recency.rank && q in r.recency.rank && r.recency.rank[k] < r.recency.rank[q]
  {
    var c := Candidates(r.runtimes.order, r.runtimes, keep, busy);
    var v := Victims(r, keep, busy);
    CandidatesAre(r.runtimes.order, r.runtimes, keep, busy);
    CandidatesRanked(r.runtimes.order, r.runtimes, keep, busy, r.recency.rank);
    DisposedEachIs(r, v);
    DisposedEachThins(r, v);
    assert k in v && q !in v && q in c;
    var i :| 0 <= i < |v| && v[i] == k;
    var j :| 0 <= j < |c| && c[j] == q;
    assert c[i] == k && j >= |v|;
  }

  // ---- Nothing is overwritten, nothing is lost ----

  /** No step replaces the runtime of a session that stays registered, and the histories of
      disposed and forgotten runtimes only grow. */
  lemma StepOverwritesNothing(r: Registry, e: Event)
    requires Inv(r) && Enabled(r, e)
    ensures var r' := Step(r, e);
      && (forall s | s in r.runtimes.vals && s in r'.runtimes.vals :: r'.runtimes.vals[s] == r.runtimes.vals[s])
      && r.ledger.disposed <= r'.ledger.disposed && r.ledger.forgotten <= r'.ledger.forgotten
      && r.ledger.next <= r'.ledger.next && r.timers.now <= r'.timers.now
  {
    match e {
      case GetOrCreate(s) =>
        if s in r.runtimes.vals { HitKeeps(r, s); }
      case WakeFulfilled(w, busy) =>
        RegisteredKeeps(r, w);
        DisposedEachThins(Registered(r, w), Victims(Registered(r, w), r.flights.wakes[w].session, busy));
      case DisposeAll => DisposedEachThins(r, r.runtimes.order);
      case TimerFires(t, busy) => DisposedThins(r.(timers := r.timers.Expire(t)), r.timers.armed[t].session);
      case Dispose(s) => DisposedThins(r, s);
      case _ =>
    }
  }

  /** Over any run every runtime a wake ever produced is in exactly one place, disposed at most
      once; and one that has been disposed or forgotten is never registered again. */
  lemma {:induction false} RuntimesConserved(cfg: Config, es: seq<Event>, more: seq<Event>, x: RuntimeId)
    requires x < After(Init(cfg), es).ledger.next
    ensures var r := After(Init(cfg), es + more);
      && InOnePlace(r.ledger, r.runtimes.vals, x)
      && NoDup(r.ledger.disposed) && NoDup(r.ledger.forgotten)
      && After(Init(cfg), es).ledger.disposed <= r.ledger.disposed
      && After(Init(cfg), es).ledger.forgotten <= r.ledger.forgotten
      && After(Init(cfg), es).ledger.next <= r.ledger.next
    decreases |more|
  {
    Reachable(cfg, es + more);
    if more == [] {
      assert es + more == es;
    } else {
      var m := more[..|more| - 1];
      RuntimesConserved(cfg, es, m, x);
      assert (es + more)[..|es + more| - 1] == es + m;
      Reachable(cfg, es + m);
      var before := After(Init(cfg), es + m);
      if Enabled(before, more[|more| - 1]) { StepOverwritesNothing(before, more[|more| - 1]); }
    }
  }

  // ---- Idle timers ----

  /** A use of `s` in the run: a `getOrCreate` that found it registered. */
  predicate IsHit(cfg: Config, es: seq<Event>, i: nat, s: SessionId)
    requires i < |es|
  {
    es[i] == GetOrCreate(s) && s in After(Init(cfg), es[..i]).runtimes.vals
  }

  lemma LastUseGrows(r: Registry, e: Event, s: SessionId)
    requires Inv(r) && Enabled(r, e)
    requires s in r.timers.lastUse && r.timers.lastUse[s] <= r.timers.now
    ensures var t := Step(r, e).timers;
      s in t.lastUse && r.timers.lastUse[s] <= t.lastUse[s] <= t.now
  {
    match e {
      case WakeFulfilled(w, busy) =>
        DisposedEachThins(Registered(r, w), Victims(Registered(r, w), r.flights.wakes[w].session, busy));
      case DisposeAll => DisposedEachThins(r, r.runtimes.order);
      case TimerFires(t, busy) => FiringKeepsUse(r, t, busy);
      case _ =>
    }
  }

  lemma FiringKeepsUse(r: Registry, t: TimerId, busy: set<RuntimeId>)
    requires t in r.timers.armed
    ensures Fired(r, t, busy).timers.lastUse == r.timers.lastUse && Fired(r, t, busy).timers.now == r.timers.now
  {
    DisposedThins(r.(timers := r.timers.Expire(t)), r.timers.armed[t].session);
  }

  lemma {:induction false} HitsAreRemembered(cfg: Config, es: seq<Event>, i: nat, s: SessionId)
    requires i < |es| && IsHit(cfg, es, i, s)
    ensures var t := After(Init(cfg), es).timers;
      s in t.lastUse && After(Init(cfg), es[..i]).timers.now <= t.lastUse[s] <= t.now
    decreases |es|
  {
    var m := es[..|es| - 1];
    var before := After(Init(cfg), m);
    Reachable(cfg, m);
    if i < |m| {
      assert m[..i] == es[..i];
      HitsAreRemembered(cfg, m, i, s);
      if Enabled(before, es[|es| - 1]) { LastUseGrows(before, es[|es| - 1], s); }
    }
  }

  /** A timer that disposes a runtime takes its own session's runtime, which is idle, and every
      `getOrCreate` that found it lies at least the idle timeout back. */
  lemma TimerDisposesOnlyIdle(cfg: Config, es: seq<Event>, t: TimerId, busy: set<RuntimeId>)
    requires Enabled(After(Init(cfg), es), TimerFires(t, busy))
    requires var r := After(Init(cfg), es); Fired(r, t, busy).runtimes != r.runtimes
    ensures var r := After(Init(cfg), es);
      var s := r.timers.armed[t].session;
      && s in r.runtimes.vals && r.runtimes.vals[s] !in busy
      && Fired(r, t, busy).runtimes.vals == r.runtimes.vals - {s}
      && Fired(r, t, busy).ledger.disposed == r.ledger.disposed + [r.runtimes.vals[s]]
      && (forall i | 0 <= i < |es| && IsHit(cfg, es, i, s) ::
            After(Init(cfg), es[..i]).timers.now + cfg.idleTimeoutMs <= r.timers.now)
  {
    Reachable(cfg, es);
    CfgIs(cfg, es);
    var r := After(Init(cfg), es);
    var s := r.timers.armed[t].session;
    FiredIs(r, t, busy);
    r.runtimes.DeleteValid(s);
    assert TimerFor(r.timers, s, cfg.idleTimeoutMs) && Live(r.timers, t);
    forall i | 0 <= i < |es| && IsHit(cfg, es, i, s)
      ensures After(Init(cfg), es[..i]).timers.now + cfg.idleTimeoutMs <= r.timers.now
    {
      HitsAreRemembered(cfg, es, i, s);
    }
  }

  lemma {:induction false} CfgIs(cfg: Config, es: seq<Event>)
    ensures After(Init(cfg), es).cfg == cfg
    decreases |es|
  {
    if es != [] {
      CfgIs(cfg, es[..|es| - 1]);
      var r := After(Init(cfg), es[..|es| - 1]);
      if Enabled(r, es[|es| - 1]) { StepCfg(r, es[|es| - 1]); }
    }
  }

  lemma StepCfg(r: Registry, e: Event)
    requires Enabled(r, e)
    ensures Step(r, e).cfg == r.cfg
  {
    match e {
      case WakeFulfilled(w, busy) =>
        DisposedEachThins(Registered(r, w), Victims(Registered(r, w), r.flights.wakes[w].session, busy));
      case DisposeAll => DisposedEachThins(r, r.runtimes.order);
      case _ =>
    }
  }

  // ---- Shutdown ----

  ghost predicate NoneBooting(r: Registry) {
    forall w | w in r.flights.wakes :: r.flights.wakes[w].phase == Settled
  }

  /** `disposeAll` empties the registry, and leaves the wakes in flight as they were. */
  lemma DisposeAllEmpties(r: Registry)
    requires Inv(r)
    ensures Step(r, DisposeAll).runtimes.vals == map[]
    ensures Step(r, DisposeAll).flights == r.flights
  {
    DisposedEachIs(r, r.runtimes.order);
    DisposedEachThins(r, r.runtimes.order);
  }

  /** With no further `getOrCreate` the registry then stays empty, whatever else happens, exactly
      when no wake was still booting: one that was registers its runtime when it completes. */
  lemma StaysEmptyIffNoneBooting(r: Registry)
    requires Inv(r)
    ensures NoneBooting(r) <==>
      forall es: seq<Event> | (forall e | e in es :: !e.GetOrCreate?) ::
        After(Step(r, DisposeAll), es).runtimes.vals == map[]
  {
    DisposeAllEmpties(r);
    var d := Step(r, DisposeAll);
    StepKeeps(r, DisposeAll);
    if NoneBooting(r) {
      forall es: seq<Event> | (forall e | e in es :: !e.GetOrCreate?)
        ensures After(d, es).runtimes.vals == map[]
      {
        EmptyStays(d, es);
      }
    } else {
      var w :| w in r.flights.wakes && r.flights.wakes[w].phase == Booting;
      BootingRegisters(d, w);
      var es := [WakeFulfilled(w, {})];
      assert forall e | e in es :: !e.GetOrCreate?;
    }
  }

  /** A booting wake that completes leaves its session registered. */
  lemma BootingRegisters(d: Registry, w: WakeId)
    requires Inv(d) && w in d.flights.wakes && d.flights.wakes[w].phase == Booting
    ensures d.flights.wakes[w].session in After(d, [WakeFulfilled(w, {})]).runtimes.vals
  {
    var es := [WakeFulfilled(w, {})];
    RegisteredKeeps(d, w);
    var g := Registered(d, w);
    var s := d.flights.wakes[w].session;
    EvictionTakes(g, s, {});
    assert es[..0] == [];
    assert After(d, es) == Step(d, es[0]);
  }

  lemma {:induction false} EmptyStays(d: Registry, es: seq<Event>)
    requires Inv(d) && d.runtimes.vals == map[] && NoneBooting(d)
    requires forall e | e in es :: !e.GetOrCreate?
    ensures After(d, es).runtimes.vals == map[] && NoneBooting(After(d, es)) && Inv(After(d, es))
    decreases |es|
  {
    if es != [] {
      EmptyStays(d, es[..|es| - 1]);
      var b := After(d, es[..|es| - 1]);
      var e := es[|es| - 1];
      if Enabled(b, e) {
        StepKeeps(b, e);
        if e.DisposeAll? { DisposedEachThins(b, b.runtimes.order); }
        if e.TimerFires? { FiredIs(b, e.t, e.busy); }
      }
    }
  }

  /** Wake `w` has settled, if it is still there. */
  predicate Over(r: Registry, w: WakeId) {
    w < r.flights.next && (w in r.flights.wakes ==> r.flights.wakes[w].phase == Settled)
  }

  lemma StepKeepsOver(r: Registry, e: Event, w: WakeId)
    requires Enabled(r, e) && Over(r, w)
    ensures Over(Step(r, e), w)
  {
    match e {
      case WakeFulfilled(v, busy) =>
        var s := r.flights.wakes[v].session;
        DisposedEachThins(Registered(r, v), Victims(Registered(r, v), s, busy));
      case DisposeAll => DisposedEachThins(r, r.runtimes.order);
      case _ =>
    }
  }

  lemma {:induction false} OverStays(r: Registry, w: WakeId, es: seq<Event>)
    requires Over(r, w)
    ensures Over(After(r, es), w)
    decreases |es|
  {
    if es != [] {
      OverStays(r, w, es[..|es| - 1]);
      var b := After(r, es[..|es| - 1]);
      if Enabled(b, es[|es| - 1]) { StepKeepsOver(b, es[|es| - 1], w); }
    }
  }

  /** After `es`, wake `w` can still complete and register its runtime. */
  predicate CanRegister(r: Registry, w: WakeId, es: seq<Event>) { Enabled(After(r, es), WakeFulfilled(w, {})) }

  /** A `getOrCreate` that joins a wake gets a runtime yet to be registered, exactly when that wake
      has not settled: a wake that has will never register one again, whatever happens. */
  lemma JoinIsStaleIffSettled(r: Registry, s: SessionId)
    requires Inv(r) && Looked(r, s).1.Joined?
    ensures var w := Looked(r, s).1.wake;
      && w in r.flights.wakes
      && (r.flights.wakes[w].phase == Settled <==>
            forall es: seq<Event> :: !CanRegister(r, w, es))
  {
    var w := Looked(r, s).1.wake;
    if r.flights.wakes[w].phase == Settled {
      assert Flying(r.flights, w, r.runtimes.vals.Keys);
      forall es: seq<Event> ensures !CanRegister(r, w, es) { OverStays(r, w, es); }
    } else {
      assert CanRegister(r, w, []);
    }
  }

  /** `getOrCreate` need not lead to a registered runtime: between a wake's registration and its
      `finally`, a disposal leaves the settled wake to be joined, whose runtime is already gone. */
  lemma JoinMayBeStale(cfg: Config)
    requires 0 < cfg.maxRuntimes
    ensures var es := [GetOrCreate("a"), WakeFulfilled(0, {}), Dispose("a")];
      var r := After(Init(cfg), es);
      && Looked(r, "a").1 == Joined(0)
      && 0 in r.flights.wakes && r.flights.wakes[0].phase == Settled && r.ledger.disposed == [0]
  {
    var r0 := Init(cfg);
    var es := [GetOrCreate("a"), WakeFulfilled(0, {}), Dispose("a")];
    assert es[..2][..1] == [es[0]] && es[..2][1] == es[1] && es[..1][..0] == [];
    var r1 := Step(r0, es[0]);
    assert After(r0, es[..1]) == r1;
    var g := Registered(r1, 0);
    assert g.runtimes.order == ["a"];
    assert Victims(g, "a", {}) == [];
    assert After(r0, es[..2]) == g;
  }
}
