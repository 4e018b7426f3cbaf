/** Which markers a session gets, and which sessions are surfaced. */
module DelegationMarkers {
  import opened Options
  import opened Delegation

  // ---- Markers ----

  /** What one call does: nothing for a session already marked; otherwise it is marked and saved, and
      unless the process dies its own kind of marker is appended. */
  lemma MarksExactly(r: Recorder, s: SessionId, dies: bool)
    ensures var n := Step(r, AppendStart(s, dies));
      && (s in r.sets.started ==> n == r)
      && (s !in r.sets.started ==>
            && n.sets == r.sets.(started := r.sets.started + {s}) && n.saved == n.sets
            && n.log == r.log + (if dies then [] else [StartMarker(s)]))
    ensures var n := Step(r, AppendCompletion(s, dies));
      && (s in r.sets.completed ==> n == r)
      && (s !in r.sets.completed ==>
            && n.sets == r.sets.(completed := r.sets.completed + {s}) && n.saved == n.sets
            && n.log == r.log + (if dies then [] else [CompletionMarker(s)]))
    ensures var n := Step(r, AppendOffline(s, dies));
      && (s in r.sets.completed ==> n == r)
      && (s !in r.sets.completed ==>
            && n.sets == r.sets.(completed := r.sets.completed + {s}) && n.saved == n.sets
            && n.log == r.log + (if dies then [] else [OfflineMarker(s)]))
  {
  }

  predicate StartsSession(e: Event, s: SessionId) { e.AppendStart? && e.s == s }
  predicate CompletesSession(e: Event, s: SessionId) { (e.AppendCompletion? || e.AppendOffline?) && e.s == s }

  /** Over any run the marked sessions are exactly those a call was made for, whatever restarts there
      were; and if no process died between saving and appending, each has exactly one marker. */
  lemma MarkedExactly(es: seq<Event>, s: SessionId)
    ensures var r := After(FRESH, es);
      && (s in r.sets.started <==> exists i :: 0 <= i < |es| && StartsSession(es[i], s))
      && (s in r.sets.completed <==> exists i :: 0 <= i < |es| && CompletesSession(es[i], s))
      && (NoDeath(es) ==>
            && Starts(r.log, s) == (if s in r.sets.started then 1 else 0)
            && Ends(r.log, s) == (if s in r.sets.completed then 1 else 0))
  {
    AtMostOnce(es, s);
    CalledExactly(es, s);
  }

  lemma {:induction false} CalledExactly(es: seq<Event>, s: SessionId)
    ensures var r := After(FRESH, es);
      && r.sets == r.saved
      && (s in r.sets.started <==> exists i :: 0 <= i < |es| && StartsSession(es[i], s))
      && (s in r.sets.completed <==> exists i :: 0 <= i < |es| && CompletesSession(es[i], s))
    decreases |es|
  {
    if es != [] {
      var m, e := es[..|es| - 1], es[|es| - 1];
      CalledExactly(m, s);
      assert es == m + [e];
      OneMoreCall(After(FRESH, m), e, s);
      if i :| 0 <= i < |m| && StartsSession(m[i], s) { assert StartsSession(es[i], s); }
      if i :| 0 <= i < |m| && CompletesSession(m[i], s) { assert CompletesSession(es[i], s); }
      assert StartsSession(e, s) ==> StartsSession(es[|es| - 1], s);
      assert CompletesSession(e, s) ==> CompletesSession(es[|es| - 1], s);
    }
  }

  lemma OneMoreCall(r: Recorder, e: Event, s: SessionId)
    requires r.sets == r.saved
    ensures var n := Step(r, e);
      && n.sets == n.saved
      && (s in n.sets.started <==> s in r.sets.started || StartsSession(e, s))
      && (s in n.sets.completed <==> s in r.sets.completed || CompletesSession(e, s))
  {
  }

  // ---- Surfacing ----

  /** A session is surfaced exactly when it is listed as idle or terminated and was not completed. */
  lemma SurfacedExactly(sessions: seq<Session>, completed: set<SessionId>, id: SessionId)
    ensures (exists i :: 0 <= i < |ToSurface(sessions, completed)| && ToSurface(sessions, completed)[i].id == id)
      <==> id !in completed
           && exists k :: 0 <= k < |sessions| && sessions[k].id == id
                && (sessions[k].status == Idle || sessions[k].status == Terminated)
  {
    var out := ToSurface(sessions, completed);
    SurfacesEachOnce(sessions, completed);
    if i :| 0 <= i < |out| && out[i].id == id {
      assert out[i] in sessions;
      var k :| 0 <= k < |sessions| && sessions[k] == out[i];
    }
    if k :| 0 <= k < |sessions| && sessions[k].id == id && IsTerminalStatus(sessions[k].status) {
      if id !in completed { var i := SurfacesAll(sessions, completed, k); }
    }
  }

  function OfflineMarkers(sessions: seq<Session>): seq<Marker> {
    seq(|sessions|, i requires 0 <= i < |sessions| => OfflineMarker(sessions[i].id))
  }

  /** Each surfaced session gets its offline marker, in order, and counts as completed from then on;
      nothing else is marked, and start markers play no part. */
  lemma {:induction false} SurfacingRecords(r: Recorder, sessions: seq<Session>)
    ensures var n, out := AfterSurfacing(r, sessions), ToSurface(sessions, r.sets.completed);
      && n.log == r.log + OfflineMarkers(out)
      && n.sets.started == r.sets.started
      && n.sets.completed == r.sets.completed + Ids(out)
      && (r.saved == r.sets ==> n.saved == n.sets)
    decreases |sessions|
  {
    if sessions == [] {
      assert r.log + OfflineMarkers([]) == r.log;
      assert AfterSurfacing(r, sessions) == r && ToSurface(sessions, r.sets.completed) == [];
    } else {
      var s, rest := sessions[0], sessions[1..];
      if IsTerminalStatus(s.status) && s.id !in r.sets.completed {
        var r' := Completed(r, s.id, OfflineMarker(s.id), false);
        SurfacingRecords(r', rest);
        var out := ToSurface(rest, r'.sets.completed);
        assert r'.sets.completed == r.sets.completed + {s.id};
        assert ToSurface(sessions, r.sets.completed) == [s] + out;
        assert r.log + OfflineMarkers([s] + out) == r.log + [OfflineMarker(s.id)] + OfflineMarkers(out);
        assert ([s] + out)[1..] == out;
      } else {
        SurfacingRecords(r, rest);
      }
    }
  }

  function Ids(sessions: seq<Session>): set<SessionId> {
    if sessions == [] then {} else {sessions[0].id} + Ids(sessions[1..])
  }

  // ---- Pages ----

  function AllData(pages: seq<SessionPage>): seq<Session> {
    if pages == [] then [] else pages[0].data + AllData(pages[1..])
  }

  /** The loop gets to the pages up to the first without a successor, and to five at most. */
  lemma FivePagesAtMost(pages: seq<SessionPage>, n: nat)
    requires n <= |pages| && n <= 5 && forall i | 0 <= i < n - 1 :: pages[i].more
    requires n == |pages| || n == 5 || (n > 0 && !pages[n - 1].more)
    ensures Visited(pages, MAX_PAGES) == AllData(pages[..n])
  {
    VisitedIs(pages, n, 5);
  }

  lemma {:induction false} VisitedIs(pages: seq<SessionPage>, n: nat, limit: nat)
    requires n <= |pages| && n <= limit && forall i | 0 <= i < n - 1 :: pages[i].more
    requires n == |pages| || n == limit || (n > 0 && !pages[n - 1].more)
    ensures Visited(pages, limit) == AllData(pages[..n])
    decreases n
  {
    if n > 0 {
      var p, rest := pages[0], pages[1..];
      assert pages[..n][1..] == rest[..n - 1];
      if p.more { VisitedIs(rest, n - 1, limit - 1); }
      else { assert pages[..1][1..] == []; }
    }
  }
}
