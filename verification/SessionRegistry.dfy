/** The session registry of the backend as a state machine: what each synchronous stretch of
    `SessionManager` does to the manager's three maps and to the event loop around it. */
module SessionRegistry {
  import opened OrderedMaps

  type SessionId = string
  type RuntimeId = nat
  type TimerId = nat
  type WakeId = nat

  datatype Config = Config(idleTimeoutMs: nat, maxRuntimes: nat)

  /** A `setTimeout` the event loop still holds. It may fire at any time from `deadline` on. */
  datatype Timer = Timer(session: SessionId, deadline: int)

  /** The manager's `idleTimers` and the event loop's own list of timers. `lastUse` is history:
      when each session was last looked up or registered. */
  datatype Timers = Timers(
    idleTimers: map<SessionId, TimerId>,
    armed: map<TimerId, Timer>,
    next: TimerId,
    now: int,
    lastUse: map<SessionId, int>)
  {
    function Clear(s: SessionId): Timers {
      if s in idleTimers then
        this.(armed := armed - {idleTimers[s]}, idleTimers := idleTimers - {s})
      else this
    }

    function Schedule(s: SessionId, ms: nat): Timers {
      var c := Clear(s);
      c.(armed := c.armed[c.next := Timer(s, c.now + ms)],
         idleTimers := c.idleTimers[s := c.next],
         next := c.next + 1)
    }

    function Used(s: SessionId): Timers {
      this.(lastUse := lastUse[s := now])
    }

    function Expire(t: TimerId): Timers {
      this.(armed := armed - {t})
    }
  }

  /** A `wake()` call: `Booting` until its promise settles, then its `finally` is still due. */
  datatype WakePhase = Booting | Settled
  datatype Wake = Wake(session: SessionId, phase: WakePhase)

  /** The manager's `inflight` and the wakes that are actually running. */
  datatype Flights = Flights(inflight: map<SessionId, WakeId>, wakes: map<WakeId, Wake>, next: WakeId) {
    function Launch(s: SessionId): Flights {
      Flights(inflight[s := next], wakes[next := Wake(s, Booting)], next + 1)
    }

    function Settle(w: WakeId): Flights
      requires w in wakes
    {
      this.(wakes := wakes[w := Wake(wakes[w].session, Settled)])
    }

    /** The `finally` of `getOrCreate`: it deletes by session id, whichever wake is recorded there. */
    function Finish(w: WakeId): Flights
      requires w in wakes
    {
      this.(wakes := wakes - {w}, inflight := inflight - {wakes[w].session})
    }
  }

  /** History of the runtimes: the session each was woken for, the calls of `rt.dispose()`, and
      the runtimes dropped by `forget`. */
  datatype Ledger = Ledger(
    next: RuntimeId,
    home: map<RuntimeId, SessionId>,
    disposed: seq<RuntimeId>,
    forgotten: seq<RuntimeId>)

  /** History of the uses: each session's latest, numbered in order of time. */
  datatype Recency = Recency(uses: nat, rank: map<SessionId, nat>) {
    function Used(s: SessionId): Recency { Recency(uses + 1, rank[s := uses]) }
  }

  datatype Registry = Registry(
    cfg: Config,
    runtimes: OrderedMap<SessionId, RuntimeId>,
    timers: Timers,
    flights: Flights,
    ledger: Ledger,
    recency: Recency)

  function Init(cfg: Config): Registry {
    Registry(cfg, EmptyMap(), Timers(map[], map[], 0, 0, map[]), Flights(map[], map[], 0),
             Ledger(0, map[], [], []), Recency(0, map[]))
  }

  // ---- What the private helpers do ----

  function Disposed(r: Registry, s: SessionId): Registry {
    var c := r.(timers := r.timers.Clear(s));
    if s in r.runtimes.vals then
      c.(ledger := r.ledger.(disposed := r.ledger.disposed + [r.runtimes.vals[s]]),
         runtimes := r.runtimes.Delete(s))
    else c
  }

  function Forgotten(r: Registry, s: SessionId): Registry {
    var c := r.(timers := r.timers.Clear(s));
    if s in r.runtimes.vals then
      c.(ledger := r.ledger.(forgotten := r.ledger.forgotten + [r.runtimes.vals[s]]),
         runtimes := r.runtimes.Delete(s))
    else c
  }

  function Touched(m: OrderedMap<SessionId, RuntimeId>, s: SessionId): OrderedMap<SessionId, RuntimeId> {
    if s in m.vals then m.Delete(s).Set(s, m.vals[s]) else m
  }

  /** May capacity eviction take `k`? Never the session to keep, never a runtime that is not idle. */
  predicate Evictable(m: OrderedMap<SessionId, RuntimeId>, k: SessionId, keep: SessionId, busy: set<RuntimeId>) {
    k != keep && k in m.vals && m.vals[k] !in busy
  }

  /** The evictable keys among `order`, in that order. */
  function Candidates(
      order: seq<SessionId>, m: OrderedMap<SessionId, RuntimeId>, keep: SessionId, busy: set<RuntimeId>): seq<SessionId>
  {
    if order == [] then []
    else if Evictable(m, order[0], keep, busy) then [order[0]] + Candidates(order[1..], m, keep, busy)
    else Candidates(order[1..], m, keep, busy)
  }

  function Victims(r: Registry, keep: SessionId, busy: set<RuntimeId>): seq<SessionId> {
    var c := Candidates(r.runtimes.order, r.runtimes, keep, busy);
    if r.runtimes.Size() <= r.cfg.maxRuntimes then []
    else if |c| <= r.runtimes.Size() - r.cfg.maxRuntimes then c
    else c[..r.runtimes.Size() - r.cfg.maxRuntimes]
  }

  function DisposedEach(r: Registry, ids: seq<SessionId>): Registry
    decreases |ids|
  {
    if ids == [] then r else DisposedEach(Disposed(r, ids[0]), ids[1..])
  }

  /** What capacity eviction must come to, said without its loop: of the idle runtimes but the
      kept one, those longest unused go, as many as the registry is over its cap. */
  function Evicted(r: Registry, keep: SessionId, busy: set<RuntimeId>): Registry {
    DisposedEach(r, Victims(r, keep, busy))
  }

  // ---- The steps ----

  /** What `getOrCreate` hands back: the runtime, or the wake whose promise is shared. */
  datatype Lookup = Hit(runtime: RuntimeId) | Joined(wake: WakeId) | Started(wake: WakeId)

  function HitOn(r: Registry, s: SessionId): Registry {
    r.(timers := r.timers.Used(s).Clear(s).Schedule(s, r.cfg.idleTimeoutMs),
       runtimes := Touched(r.runtimes, s),
       recency := r.recency.Used(s))
  }

  function Looked(r: Registry, s: SessionId): (Registry, Lookup) {
    if s in r.runtimes.vals then (HitOn(r, s), Hit(r.runtimes.vals[s]))
    else if s in r.flights.inflight then (r, Joined(r.flights.inflight[s]))
    else (r.(flights := r.flights.Launch(s)), Started(r.flights.next))
  }

  /** A wake's promise is fulfilled: the new runtime is registered and its timer armed. */
  function Registered(r: Registry, w: WakeId): Registry
    requires w in r.flights.wakes
  {
    var s := r.flights.wakes[w].session;
    r.(runtimes := r.runtimes.Set(s, r.ledger.next),
       ledger := r.ledger.(next := r.ledger.next + 1, home := r.ledger.home[r.ledger.next := s]),
       flights := r.flights.Settle(w),
       timers := r.timers.Used(s).Schedule(s, r.cfg.idleTimeoutMs),
       recency := r.recency.Used(s))
  }

  /** ... and then the capacity is enforced, in the same synchronous stretch. */
  function Fulfilled(r: Registry, w: WakeId, busy: set<RuntimeId>): Registry
    requires w in r.flights.wakes
  {
    Evicted(Registered(r, w), r.flights.wakes[w].session, busy)
  }

  /** The event loop takes timer `t` off its list and runs the callback. */
  function Fired(r: Registry, t: TimerId, busy: set<RuntimeId>): Registry
    requires t in r.timers.armed
  {
    var s := r.timers.armed[t].session;
    var e := r.(timers := r.timers.Expire(t));
    if s in r.runtimes.vals && r.runtimes.vals[s] in busy then
      e.(timers := e.timers.Schedule(s, r.cfg.idleTimeoutMs))
    else Disposed(e, s)
  }

  /** Everything that can happen next. `busy` is the set of runtimes not idle at that moment;
      the runtimes change status on their own, so it is free at every step. */
  datatype Event =
    | GetOrCreate(s: SessionId)
    | WakeFulfilled(w: WakeId, busy: set<RuntimeId>)
    | WakeRejected(w: WakeId)
    | WakeFinally(w: WakeId)
    | Dispose(s: SessionId)
    | Forget(s: SessionId)
    | DisposeAll
    | TimerFires(t: TimerId, busy: set<RuntimeId>)
    | Tick(ms: nat)

  predicate Enabled(r: Registry, e: Event) {
    match e
    case WakeFulfilled(w, _) => w in r.flights.wakes && r.flights.wakes[w].phase == Booting
    case WakeRejected(w) => w in r.flights.wakes && r.flights.wakes[w].phase == Booting
    case WakeFinally(w) => w in r.flights.wakes && r.flights.wakes[w].phase == Settled
    case TimerFires(t, _) => t in r.timers.armed && r.timers.armed[t].deadline <= r.timers.now
    case _ => true
  }

  function Step(r: Registry, e: Event): Registry
    requires Enabled(r, e)
  {
    match e
    case GetOrCreate(s) => Looked(r, s).0
    case WakeFulfilled(w, busy) => Fulfilled(r, w, busy)
    case WakeRejected(w) => r.(flights := r.flights.Settle(w))
    case WakeFinally(w) => r.(flights := r.flights.Finish(w))
    case Dispose(s) => Disposed(r, s)
    case Forget(s) => Forgotten(r, s)
    case DisposeAll => DisposedEach(r, r.runtimes.order)
    case TimerFires(t, busy) => Fired(r, t, busy)
    case Tick(ms) => r.(timers := r.timers.(now := r.timers.now + ms))
  }

  /** The state after a list of events; one that cannot happen where it stands is skipped, so
      the lists range over exactly the runs of the machine. */
  function After(r: Registry, es: seq<Event>): Registry
    decreases |es|
  {
    if es == [] then r
    else
      var before := After(r, es[..|es| - 1]);
      if Enabled(before, es[|es| - 1]) then Step(before, es[|es| - 1]) else before
  }
}
