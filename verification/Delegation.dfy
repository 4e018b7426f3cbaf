/** The durable markers of a delegation: one start and one completion per session at most, however
    often panels attach, streams replay, and the local process restarts or dies. */
module Delegation {
  import opened Options

  type SessionId = string

  // ---- Which frames and statuses end a session ----

  datatype PanelMode = Interactive | Delegate
  datatype Status = Idle | Running | Rescheduling | Terminated

  predicate IsTerminalStatus(s: Status) { s == Idle || s == Terminated }

  /** The status a frame ends the session with, for a panel in this mode. */
  function ClassifyTerminal(event: string, mode: PanelMode): Option<Status> {
    if event == "session.status_idle" then (if mode != Interactive then Some(Idle) else None)
    else if event == "session.status_terminated" then Some(Terminated)
    else if event == "session.error" then Some(Terminated)
    else None
  }

  // ---- The recorder ----

  datatype Marker = StartMarker(s: SessionId) | CompletionMarker(s: SessionId) | OfflineMarker(s: SessionId)

  /** The two sets as the recorder holds them, or as the store last saved them. */
  datatype Dedup = Dedup(started: set<SessionId>, completed: set<SessionId>)

  /** `log` is the session log the markers are appended to; it outlives the process. */
  datatype Recorder = Recorder(sets: Dedup, saved: Dedup, log: seq<Marker>)

  /** Mark, save, append. A process that dies after saving appends nothing, and the next one
      starts from what was saved. */
  function Marked(r: Recorder, sets: Dedup, m: Marker, dies: bool): Recorder {
    Recorder(sets, sets, if dies then r.log else r.log + [m])
  }

  function Started(r: Recorder, s: SessionId, dies: bool): Recorder {
    if s in r.sets.started then r
    else Marked(r, r.sets.(started := r.sets.started + {s}), StartMarker(s), dies)
  }

  function Completed(r: Recorder, s: SessionId, m: Marker, dies: bool): Recorder {
    if s in r.sets.completed then r
    else Marked(r, r.sets.(completed := r.sets.completed + {s}), m, dies)
  }

  datatype Event =
    | AppendStart(s: SessionId, dies: bool)
    | AppendCompletion(s: SessionId, dies: bool)
    | AppendOffline(s: SessionId, dies: bool)
    | Restart

  function Step(r: Recorder, e: Event): Recorder {
    match e
    case AppendStart(s, dies) => Started(r, s, dies)
    case AppendCompletion(s, dies) => Completed(r, s, CompletionMarker(s), dies)
    case AppendOffline(s, dies) => Completed(r, s, OfflineMarker(s), dies)
    case Restart => r.(sets := r.saved)
  }

  function After(r: Recorder, es: seq<Event>): Recorder
    decreases |es|
  {
    if es == [] then r else Step(After(r, es[..|es| - 1]), es[|es| - 1])
  }

  const FRESH := Recorder(Dedup({}, {}), Dedup({}, {}), [])

  predicate EndsSession(m: Marker, s: SessionId) { m == CompletionMarker(s) || m == OfflineMarker(s) }

  function Starts(log: seq<Marker>, s: SessionId): nat {
    if log == [] then 0
    else Starts(log[..|log| - 1], s) + if log[|log| - 1] == StartMarker(s) then 1 else 0
  }

  function Ends(log: seq<Marker>, s: SessionId): nat {
    if log == [] then 0
    else Ends(log[..|log| - 1], s) + if EndsSession(log[|log| - 1], s) then 1 else 0
  }

  ghost predicate NoDeath(es: seq<Event>) {
    forall e | e in es :: e == Restart || !e.dies
  }

  /** Over any run each session gets at most one start marker and at most one marker that ends it,
      completion or offline completion; the recorder's sets are the saved ones; only marked
      sessions have markers; and if no process died between saving and appending, all of them do. */
  lemma {:induction false} AtMostOnce(es: seq<Event>, s: SessionId)
    ensures var r := After(FRESH, es);
      && r.sets == r.saved
      && Starts(r.log, s) <= (if s in r.sets.started then 1 else 0)
      && Ends(r.log, s) <= (if s in r.sets.completed then 1 else 0)
      && (NoDeath(es) ==>
            && Starts(r.log, s) == (if s in r.sets.started then 1 else 0)
            && Ends(r.log, s) == (if s in r.sets.completed then 1 else 0))
    decreases |es|
  {
    if es != [] {
      var m := es[..|es| - 1];
      AtMostOnce(m, s);
      assert NoDeath(es) ==> NoDeath(m);
      var r, r' := After(FRESH, m), After(FRESH, es);
      if |r'.log| > |r.log| { assert r'.log[..|r.log|] == r.log; }
    }
  }

  // ---- Finding the sessions that completed while no one watched ----

  datatype Session = Session(id: SessionId, status: Status)
  datatype SessionPage = SessionPage(data: seq<Session>, more: bool)

  const MAX_PAGES: nat := 5

  /** The sessions of a listing to surface, given those completed already: the terminal ones not
      completed, each once. */
  function ToSurface(sessions: seq<Session>, completed: set<SessionId>): seq<Session> {
    if sessions == [] then []
    else
      var s := sessions[0];
      if IsTerminalStatus(s.status) && s.id !in completed then [s] + ToSurface(sessions[1..], completed + {s.id})
      else ToSurface(sessions[1..], completed)
  }

  /** What is left after surfacing `sessions`. */
  function AfterSurfacing(r: Recorder, sessions: seq<Session>): Recorder
    decreases |sessions|
  {
    if sessions == [] then r
    else if IsTerminalStatus(sessions[0].status) then
      AfterSurfacing(Completed(r, sessions[0].id, OfflineMarker(sessions[0].id), false), sessions[1..])
    else AfterSurfacing(r, sessions[1..])
  }

  /** The pages the loop gets to: up to the first without a successor, and five at most. */
  function Visited(pages: seq<SessionPage>, n: nat): seq<Session> {
    if n == 0 || pages == [] then []
    else pages[0].data + if pages[0].more then Visited(pages[1..], n - 1) else []
  }

  /** What is surfaced is terminal, was not completed before, and comes once. */
  ghost predicate Fit(out: seq<Session>, sessions: seq<Session>, completed: set<SessionId>) {
    && (forall i, j | 0 <= i < j < |out| :: out[i].id != out[j].id)
    && (forall i | 0 <= i < |out| :: out[i] in sessions && IsTerminalStatus(out[i].status) && out[i].id !in completed)
  }

  lemma {:induction false} SurfacesEachOnce(sessions: seq<Session>, completed: set<SessionId>)
    ensures Fit(ToSurface(sessions, completed), sessions, completed)
    decreases |sessions|
  {
    if sessions != [] {
      var s, rest := sessions[0], sessions[1..];
      assert sessions == [s] + rest;
      if IsTerminalStatus(s.status) && s.id !in completed {
        SurfacesEachOnce(rest, completed + {s.id});
        FitCons(s, ToSurface(rest, completed + {s.id}), rest, completed);
      } else {
        SurfacesEachOnce(rest, completed);
        assert forall t | t in rest :: t in sessions;
      }
    }
  }

  lemma FitCons(s: Session, out: seq<Session>, rest: seq<Session>, completed: set<SessionId>)
    requires IsTerminalStatus(s.status) && s.id !in completed && Fit(out, rest, completed + {s.id})
    ensures Fit([s] + out, [s] + rest, completed)
  {
    var o := [s] + out;
    forall i | 0 <= i < |o| ensures o[i] in [s] + rest && IsTerminalStatus(o[i].status) && o[i].id !in completed {
      if i > 0 { assert o[i] == out[i - 1] && out[i - 1] in rest; }
    }
    forall i, j | 0 <= i < j < |o| ensures o[i].id != o[j].id {
      assert o[j] == out[j - 1];
      if i == 0 { assert out[j - 1].id !in completed + {s.id}; } else { assert o[i] == out[i - 1]; }
    }
  }

  /** Every terminal session listed is surfaced, unless it was completed before. */
  lemma {:induction false} SurfacesAll(sessions: seq<Session>, completed: set<SessionId>, k: nat) returns (i: nat)
    requires k < |sessions| && IsTerminalStatus(sessions[k].status) && sessions[k].id !in completed
    ensures i < |ToSurface(sessions, completed)| && ToSurface(sessions, completed)[i].id == sessions[k].id
    decreases |sessions|
  {
    var s := sessions[0];
    if IsTerminalStatus(s.status) && s.id !in completed {
      if s.id == sessions[k].id {
        i := 0;
      } else {
        i := SurfacesAll(sessions[1..], completed + {s.id}, k - 1);
        i := i + 1;
      }
    } else {
      i := SurfacesAll(sessions[1..], completed, k - 1);
    }
  }

  class DelegationDedupStore {
    var state: Dedup

    constructor ()
      ensures state == Dedup({}, {})
    {
      state := Dedup({}, {});
    }
  }

  class DelegationRecorder {
    var started: set<SessionId>
    var completed: set<SessionId>
    const store: DelegationDedupStore
    ghost var log: seq<Marker>

    ghost function State(): Recorder
      reads this, store
    {
      Recorder(Dedup(started, completed), store.state, log)
    }

    /** A process starts: the sets are what the store holds; the log is what it was. */
    constructor (store: DelegationDedupStore, ghost log: seq<Marker>)
      ensures this.store == store && State() == Recorder(store.state, store.state, log)
    {
      this.store := store;
      started, completed := store.state.started, store.state.completed;
      this.log := log;
    }

    method Persist()
      modifies store
      ensures store.state == Dedup(started, completed)
    {
      store.state := Dedup(started, completed);
    }

    method AppendStart(s: SessionId)
      modifies this, store
      ensures State() == Started(old(State()), s, false)
    {
      if s in started { return; }
      started := started + {s};
      Persist();
      log := log + [StartMarker(s)];
    }

    method AppendCompletion(s: SessionId)
      modifies this, store
      ensures State() == Completed(old(State()), s, CompletionMarker(s), false)
    {
      if s in completed { return; }
      completed := completed + {s};
      Persist();
      log := log + [CompletionMarker(s)];
    }

    method AppendOfflineCompletion(s: SessionId)
      modifies this, store
      ensures State() == Completed(old(State()), s, OfflineMarker(s), false)
    {
      if s in completed { return; }
      completed := completed + {s};
      Persist();
      log := log + [OfflineMarker(s)];
    }

    /** One page of `surfaceOfflineCompletions`. */
    method SurfacePage(sessions: seq<Session>) returns (surfaced: seq<Session>)
      modifies this, store
      ensures State() == AfterSurfacing(old(State()), sessions)
      ensures surfaced == ToSurface(sessions, old(completed))
    {
      surfaced := [];
      for i := 0 to |sessions|
        invariant AfterSurfacing(State(), sessions[i..]) == AfterSurfacing(old(State()), sessions)
        invariant surfaced + ToSurface(sessions[i..], completed) == ToSurface(sessions, old(completed))
      {
        var session := sessions[i];
        assert sessions[i..][0] == session && sessions[i..][1..] == sessions[i + 1..];
        ghost var before := surfaced;
        if !IsTerminalStatus(session.status) { continue; }
        // With or without a start marker, a session not yet completed is completed now.
        if session.id !in completed {
          AppendOfflineCompletion(session.id);
          surfaced := surfaced + [session];
          assert before + ([session] + ToSurface(sessions[i + 1..], completed))
              == surfaced + ToSurface(sessions[i + 1..], completed);
        }
      }
    }

    method SurfaceOfflineCompletions(pages: seq<SessionPage>) returns (surfaced: seq<Session>)
      modifies this, store
      ensures State() == AfterSurfacing(old(State()), Visited(pages, MAX_PAGES))
      ensures surfaced == ToSurface(Visited(pages, MAX_PAGES), old(completed))
    {
      surfaced := [];
      var n, rest := 0, pages;
      ghost var all := Visited(pages, MAX_PAGES);
      ghost var left := all;
      while n < MAX_PAGES && rest != []
        invariant n <= MAX_PAGES
        invariant left == Visited(rest, MAX_PAGES - n)
        invariant AfterSurfacing(State(), left) == AfterSurfacing(old(State()), all)
        invariant surfaced + ToSurface(left, completed) == ToSurface(all, old(completed))
      {
        ghost var page, tail := rest[0].data, if rest[0].more then Visited(rest[1..], MAX_PAGES - n - 1) else [];
        assert left == page + tail;
        SurfaceSplit(State(), page, tail);
        ghost var before := surfaced;
        var found := SurfacePage(rest[0].data);
        surfaced := surfaced + found;
        assert before + (found + ToSurface(tail, completed)) == surfaced + ToSurface(tail, completed);
        left := tail;
        if !rest[0].more {
          assert left == [];
          break;
        }
        n, rest := n + 1, rest[1..];
      }
      assert left == [];
    }
  }

  /** Surfacing one listing after another is surfacing both at once. */
  lemma {:induction false} SurfaceSplit(r: Recorder, a: seq<Session>, b: seq<Session>)
    ensures AfterSurfacing(r, a + b) == AfterSurfacing(AfterSurfacing(r, a), b)
    ensures ToSurface(a + b, r.sets.completed)
         == ToSurface(a, r.sets.completed) + ToSurface(b, AfterSurfacing(r, a).sets.completed)
    decreases |a|
  {
    if a == [] {
      assert a + b == b;
    } else {
      assert (a + b)[1..] == a[1..] + b;
      var r' := if IsTerminalStatus(a[0].status) then Completed(r, a[0].id, OfflineMarker(a[0].id), false) else r;
      SurfaceSplit(r', a[1..], b);
      if IsTerminalStatus(a[0].status) && a[0].id !in r.sets.completed {
        assert r'.sets.completed == r.sets.completed + {a[0].id};
      }
    }
  }
}
