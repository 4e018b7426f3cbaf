/** `ConnectionManager` and the generator it reads from, with the fields and locals they assign. */
module ConnectionManagers {
  import opened Options
  import opened EventHistory
  import opened StreamClient
  import Delegation

  class ConnectionManager {
    const settings: Settings
    var lastEventId: Option<nat>
    var stopped: bool
    // Locals of `run`.
    var attempts: nat
    var delay: nat
    // Where `run` and the generator stand.
    var phase: Phase
    // History.
    ghost var delivered: seq<nat>
    ghost var frames: nat
    ghost var streak: seq<nat>
    ghost var sleeps: nat

    ghost function State(): Client
      reads this
    {
      Client(settings, lastEventId, stopped, attempts, delay, phase, delivered, frames, streak, sleeps)
    }

    constructor (settings: Settings, resume: Option<nat>)
      ensures State() == Start(settings, resume)
    {
      this.settings := settings;
      lastEventId, stopped, attempts, delay := resume, false, 0, settings.backoffMs;
      phase := Reading(resume, Connecting);
      delivered, frames, streak, sleeps := [], 0, [], 0;
    }

    method StopLoop()
      modifies this`stopped
      ensures State() == old(State()).(stopped := true)
    {
      stopped := true;
    }

    method GoBack()
      modifies this
      ensures State() == Backoff(old(State()))
    {
      attempts := attempts + 1;
      if attempts > settings.maxReconnects {
        StopLoop();
        phase := Returned;
        return;
      }
      streak, sleeps := streak + [delay], sleeps + 1;
      phase := Sleeping;
      delay := if delay * 2 < settings.maxBackoffMs then delay * 2 else settings.maxBackoffMs;
    }

    method Catch()
      modifies this
      ensures State() == Caught(old(State()))
    {
      if stopped { phase := Returned; } else { GoBack(); }
    }

    /** The body of the frame loop of `run`. */
    method Hand(p: Phase, id: Option<nat>, x: Reaction)
      modifies this
      ensures State() == Handed(old(State()), p, id, x)
    {
      if stopped {
        phase := Returned;
        return;
      }
      phase := p;
      if id.Some? {
        lastEventId := id;
        delivered := delivered + [id.value];
      }
      attempts, delay := 0, settings.backoffMs;
      frames, streak := frames + 1, [];
      match VerdictOn(settings.mode, x)
      case GoesOn =>
      case Terminal =>
        StopLoop();
        phase := Returned;
      case HandlerThrows => Catch();
    }

    /** `streamSession`: one outcome of a request, or one frame off the reader. */
    method OnStream(e: Event, head: nat)
      requires Enabled(System(State(), head), e) && phase.Reading? && (phase.mode == Connecting || phase.mode.Streaming?)
      modifies this
      ensures State() == Moved(old(State()), e, head)
    {
      var lastId := phase.lastId;
      match e
      case Connected(origin) => phase := Reading(lastId, Streaming(origin));
      case Unusable => phase := Reading(lastId, Polling(SeenAt(lastId), None));
      case KeyFails => Catch();
      case FrameArrives(x) =>
        lastId := Some(phase.mode.next);
        Hand(Reading(lastId, Streaming(phase.mode.next + 1)), lastId, x);
      case DeltaArrives(x) => Hand(phase, None, x);
      case Drops => phase := Reading(lastId, Connecting);
      case Closes => phase := if stopped then Returned else Asking;
      case TimesUp => phase := if stopped then Returned else Asking;
      case Stop => StopLoop();
      case Append =>
    }

    /** `pollSession`: one page fetched, or one entry of it handed over. */
    method OnPoll(e: Event, head: nat)
      requires Enabled(System(State(), head), e) && phase.Reading? && (phase.mode.Polling? || phase.mode.Paging?)
      modifies this
      ensures State() == Moved(old(State()), e, head)
    {
      var lastId, seenSeq := phase.lastId, phase.mode.seenSeq;
      match e
      case PageArrives =>
        var page := HistoryPage(head, PAGE_LIMIT, phase.mode.cursor);
        phase := Reading(lastId, Paging(seenSeq, page.data, page.nextCursor, head));
      case PageFails => phase := Reading(lastId, Polling(seenSeq, None));
      case EntryTaken(x) =>
        var entry, rest := phase.mode.entries[0], phase.mode.entries[1..];
        var nextCursor, readAt := phase.mode.nextCursor, phase.mode.readAt;
        if entry <= seenSeq {
          phase := Reading(lastId, Paging(seenSeq, rest, nextCursor, readAt));
          return;
        }
        Hand(Reading(lastId, Paging(entry, rest, nextCursor, readAt)), Some(entry), x);
      case PageDone => phase := Reading(lastId, Polling(seenSeq, phase.mode.nextCursor));
      case TimesUp => phase := if stopped then Returned else Asking;
      case Stop => StopLoop();
      case Append =>
    }

    /** The rest of `run`: reconcile with the session's status, and sleep. */
    method OnOuter(e: Event, head: nat)
      requires Enabled(System(State(), head), e) && !phase.Reading?
      modifies this
      ensures State() == Moved(old(State()), e, head)
    {
      match e
      case SessionIs(status) =>
        if Delegation.IsTerminalStatus(status) {
          StopLoop();
          phase := Returned;
        } else {
          GoBack();
        }
      case AskFails => Catch();
      case WakesUp => phase := if stopped then Returned else Reading(lastEventId, Connecting);
      case Stop => StopLoop();
      case Append =>
    }

    /** A run against any script of events, over a log that grows as the script says. */
    method Run(script: seq<Event>, head0: nat) returns (head: nat)
      modifies this
      ensures System(State(), head) == After(System(old(State()), head0), script)
    {
      head := head0;
      for i := 0 to |script|
        invariant System(State(), head) == After(System(old(State()), head0), script[..i])
      {
        assert script[..i + 1][..i] == script[..i];
        var e := script[i];
        var before := head;
        if IsEnabled(e, head) {
          if e == Append { head := head + 1; }
          if !phase.Reading? { OnOuter(e, before); }
          else if phase.mode == Connecting || phase.mode.Streaming? { OnStream(e, before); }
          else { OnPoll(e, before); }
        }
      }
      assert script[..|script|] == script;
    }

    predicate IsEnabled(e: Event, head: nat)
      reads this
      ensures IsEnabled(e, head) == Enabled(System(State(), head), e)
    {
      Enabled(System(Client(settings, lastEventId, stopped, attempts, delay, phase, [], 0, [], 0), head), e)
    }
  }
}
