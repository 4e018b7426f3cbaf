/** `SessionManager` itself: the fields its methods assign, with one method for each stretch that
    runs without an `await` in between. Every method is proved to do what `SessionRegistry` says. */
module SessionManagers {
  import opened OrderedMaps
  import opened SessionRegistry
  import opened SessionTheorems

  /** With the map over its cap, the first evictable key is the first victim, and disposing it
      leaves the rest of the eviction to do. */
  lemma EvictionRound(r: Registry, keep: SessionId, busy: set<RuntimeId>, i: nat)
    requires r.runtimes.Valid() && r.runtimes.Size() > r.cfg.maxRuntimes
    requires i < r.runtimes.Size() && Evictable(r.runtimes, r.runtimes.order[i], keep, busy)
    requires forall j | 0 <= j < i :: !Evictable(r.runtimes, r.runtimes.order[j], keep, busy)
    ensures Evicted(r, keep, busy) == Evicted(Disposed(r, r.runtimes.order[i]), keep, busy)
  {
    var k := r.runtimes.order[i];
    var d := Disposed(r, k);
    r.runtimes.DeleteValid(k);
    FirstCandidate(r.runtimes, keep, busy, i);
    assert d.runtimes == r.runtimes.Delete(k);
    assert Victims(r, keep, busy) == [k] + Victims(d, keep, busy);
  }

  lemma FirstCandidate(m: OrderedMap<SessionId, RuntimeId>, keep: SessionId, busy: set<RuntimeId>, i: nat)
    requires m.Valid() && i < m.Size() && Evictable(m, m.order[i], keep, busy)
    requires forall j | 0 <= j < i :: !Evictable(m, m.order[j], keep, busy)
    ensures var d := m.Delete(m.order[i]);
      Candidates(m.order, m, keep, busy) == [m.order[i]] + Candidates(d.order, d, keep, busy)
  {
    CandidatesFrom(m.order, m, keep, busy, i);
    CandidatesWithout(m.order, m, keep, busy, m.order[i]);
  }

  lemma {:induction false} CandidatesFrom(
      order: seq<SessionId>, m: OrderedMap<SessionId, RuntimeId>, keep: SessionId, busy: set<RuntimeId>, i: nat)
    requires i <= |order|
    requires forall j | 0 <= j < i :: !Evictable(m, order[j], keep, busy)
    ensures Candidates(order, m, keep, busy) == Candidates(order[i..], m, keep, busy)
    decreases i
  {
    if i > 0 {
      assert order[i..] == order[1..][i - 1..];
      CandidatesFrom(order[1..], m, keep, busy, i - 1);
    } else {
      assert order[0..] == order;
    }
  }

  /** Deleting a key from the map takes it off the candidates. */
  lemma {:induction false} CandidatesWithout(
      order: seq<SessionId>, m: OrderedMap<SessionId, RuntimeId>, keep: SessionId, busy: set<RuntimeId>, k: SessionId)
    requires NoDup(order) && k in m.vals
    ensures Candidates(Without(order, k), m.Delete(k), keep, busy) == Without(Candidates(order, m, keep, busy), k)
  {
    if order != [] {
      CandidatesWithout(order[1..], m, keep, busy, k);
      if order[0] == k {
        Unconcerned(order[1..], m, keep, busy, k);
      } else {
        assert Without(order, k) == [order[0]] + Without(order[1..], k);
      }
    }
  }

  lemma {:induction false} Unconcerned(
      order: seq<SessionId>, m: OrderedMap<SessionId, RuntimeId>, keep: SessionId, busy: set<RuntimeId>, k: SessionId)
    requires k !in order && k in m.vals
    ensures Candidates(order, m.Delete(k), keep, busy) == Candidates(order, m, keep, busy)
    ensures Without(Candidates(order, m, keep, busy), k) == Candidates(order, m, keep, busy)
  {
    if order != [] { Unconcerned(order[1..], m, keep, busy, k); }
  }

  class SessionManager {
    const cfg: Config
    var runtimes: OrderedMap<SessionId, RuntimeId>
    var idleTimers: map<SessionId, TimerId>
    var inflight: map<SessionId, WakeId>
    // What the manager only starts, stops and is called back by.
    var armed: map<TimerId, Timer>
    var nextTimer: TimerId
    var now: int
    var wakes: map<WakeId, Wake>
    var nextWake: WakeId
    // The runtimes ever made, and what became of them.
    var ledger: Ledger
    // History.
    ghost var lastUse: map<SessionId, int>
    ghost var recency: Recency

    ghost function State(): Registry
      reads this
    {
      Registry(cfg, runtimes, Timers(idleTimers, armed, nextTimer, now, lastUse),
               Flights(inflight, wakes, nextWake), ledger, recency)
    }

    constructor (cfg: Config)
      ensures State() == Init(cfg)
    {
      this.cfg := cfg;
      runtimes, idleTimers, inflight := EmptyMap(), map[], map[];
      armed, nextTimer, now, wakes, nextWake := map[], 0, 0, map[], 0;
      lastUse, ledger, recency := map[], Ledger(0, map[], [], []), Recency(0, map[]);
    }

    method ClearEviction(s: SessionId)
      modifies this`idleTimers, this`armed
      ensures State() == old(State()).(timers := old(State()).timers.Clear(s))
    {
      if s in idleTimers {
        armed := armed - {idleTimers[s]};
        idleTimers := idleTimers - {s};
      }
    }

    method ScheduleEviction(s: SessionId)
      modifies this`idleTimers, this`armed, this`nextTimer
      ensures State() == old(State()).(timers := old(State()).timers.Schedule(s, cfg.idleTimeoutMs))
    {
      ClearEviction(s);
      armed := armed[nextTimer := Timer(s, now + cfg.idleTimeoutMs)];
      idleTimers := idleTimers[s := nextTimer];
      nextTimer := nextTimer + 1;
    }

    method TouchLru(s: SessionId)
      modifies this`runtimes
      ensures runtimes == Touched(old(runtimes), s)
    {
      if s in runtimes.vals {
        var rt := runtimes.vals[s];
        runtimes := runtimes.Delete(s);
        runtimes := runtimes.Set(s, rt);
      }
    }

    /** Used in the history, by a lookup or a registration. */
    ghost method Note(s: SessionId)
      modifies this`lastUse, this`recency
      ensures lastUse == old(lastUse)[s := now] && recency == old(recency).Used(s)
    {
      lastUse := lastUse[s := now];
      recency := recency.Used(s);
    }

    method GetOrCreate(s: SessionId) returns (found: Lookup)
      modifies this
      ensures (State(), found) == Looked(old(State()), s)
    {
      if s in runtimes.vals {
        Note(s);
        ClearEviction(s);
        ScheduleEviction(s);
        TouchLru(s);
        return Hit(runtimes.vals[s]);
      }
      if s in inflight { return Joined(inflight[s]); }
      found := Started(nextWake);
      wakes := wakes[nextWake := Wake(s, Booting)];
      inflight := inflight[s := nextWake];
      nextWake := nextWake + 1;
    }

    method Dispose(s: SessionId)
      modifies this`runtimes, this`idleTimers, this`armed, this`ledger
      ensures State() == Disposed(old(State()), s)
    {
      ClearEviction(s);
      if s in runtimes.vals {
        ledger := ledger.(disposed := ledger.disposed + [runtimes.vals[s]]);
        runtimes := runtimes.Delete(s);
      }
    }

    method Forget(s: SessionId)
      modifies this`runtimes, this`idleTimers, this`armed, this`ledger
      ensures State() == Forgotten(old(State()), s)
    {
      ClearEviction(s);
      if s in runtimes.vals {
        ledger := ledger.(forgotten := ledger.forgotten + [runtimes.vals[s]]);
        runtimes := runtimes.Delete(s);
      }
    }

    method DisposeAll()
      modifies this`runtimes, this`idleTimers, this`armed, this`ledger
      ensures State() == DisposedEach(old(State()), old(runtimes.order))
    {
      var ids := runtimes.order;
      var i := 0;
      while i < |ids|
        invariant 0 <= i <= |ids|
        invariant DisposedEach(old(State()), ids) == DisposedEach(State(), ids[i..])
      {
        assert ids[i..][1..] == ids[i + 1..];
        Dispose(ids[i]);
        i := i + 1;
      }
    }

    /** The loop of `evictIfOverCapacity`: while over the cap, dispose the first idle runtime in
        map order that is not the one to keep. */
    method EvictIfOverCapacity(keepId: SessionId, busy: set<RuntimeId>)
      requires runtimes.Valid()
      modifies this`runtimes, this`idleTimers, this`armed, this`ledger
      ensures State() == Evicted(old(State()), keepId, busy)
    {
      while runtimes.Size() > cfg.maxRuntimes
        invariant runtimes.Valid()
        invariant Evicted(old(State()), keepId, busy) == Evicted(State(), keepId, busy)
        decreases runtimes.Size()
      {
        var i := 0;
        while i < runtimes.Size() && !Evictable(runtimes, runtimes.order[i], keepId, busy)
          invariant 0 <= i <= runtimes.Size()
          invariant forall j | 0 <= j < i :: !Evictable(runtimes, runtimes.order[j], keepId, busy)
        {
          i := i + 1;
        }
        if i == runtimes.Size() {
          CandidatesFrom(runtimes.order, runtimes, keepId, busy, i);
          break;
        }
        EvictionRound(State(), keepId, busy, i);
        runtimes.DeleteValid(runtimes.order[i]);
        Dispose(runtimes.order[i]);
      }
    }

    /** The continuation of `wake` once its promise is fulfilled. */
    method OnWakeFulfilled(w: WakeId, busy: set<RuntimeId>)
      requires w in wakes && wakes[w].phase == Booting && runtimes.Valid()
      modifies this
      ensures State() == Fulfilled(old(State()), w, busy)
    {
      var s := wakes[w].session;
      wakes := wakes[w := Wake(s, Settled)];
      runtimes.SetValid(s, ledger.next);
      RegisterRuntime(s);
      Note(s);
      ScheduleEviction(s);
      assert State() == Registered(old(State()), w);
      EvictIfOverCapacity(s, busy);
    }

    /** `runtimes.set` with the runtime the wake produced. */
    method RegisterRuntime(s: SessionId)
      modifies this`runtimes, this`ledger
      ensures runtimes == old(runtimes).Set(s, old(ledger).next)
      ensures ledger == old(ledger).(next := old(ledger).next + 1, home := old(ledger).home[old(ledger).next := s])
    {
      var rt := ledger.next;
      ledger := ledger.(next := rt + 1, home := ledger.home[rt := s]);
      runtimes := runtimes.Set(s, rt);
    }

    method OnWakeRejected(w: WakeId)
      requires w in wakes && wakes[w].phase == Booting
      modifies this`wakes
      ensures State() == old(State()).(flights := old(State()).flights.Settle(w))
    {
      wakes := wakes[w := Wake(wakes[w].session, Settled)];
    }

    /** The `finally` that `getOrCreate` attached to the wake. */
    method OnWakeFinally(w: WakeId)
      requires w in wakes
      modifies this`wakes, this`inflight
      ensures State() == old(State()).(flights := old(State()).flights.Finish(w))
    {
      inflight := inflight - {wakes[w].session};
      wakes := wakes - {w};
    }

    method OnTimer(t: TimerId, busy: set<RuntimeId>)
      requires t in armed
      modifies this`runtimes, this`idleTimers, this`armed, this`nextTimer, this`ledger
      ensures State() == Fired(old(State()), t, busy)
    {
      var s := armed[t].session;
      armed := armed - {t};
      if s in runtimes.vals && runtimes.vals[s] in busy {
        ScheduleEviction(s);
      } else {
        Dispose(s);
      }
    }
  }
}
