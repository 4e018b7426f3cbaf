/** When the client of a stream goes on, waits, and gives up. */
module StreamEndings {
  import opened Options
  import opened EventHistory
  import opened StreamClient
  import opened Delegation

  type ClientEvent = StreamClient.Event

  function Run(settings: Settings, resume: Option<nat>, head0: nat, es: seq<ClientEvent>): System {
    StreamClient.After(System(Start(settings, resume), head0), es)
  }

  // ---- Frames ----

  /** The events that end a session for a panel: its termination, an error, and going idle for a panel
      that delegates. */
  predicate EndsPanel(event: string, mode: PanelMode) {
    || event == "session.status_terminated" || event == "session.error"
    || (event == "session.status_idle" && mode == Delegate)
  }

  /** What becomes of a client that is handed a frame with position `p`, or with none. */
  ghost predicate HandedOver(c: Client, n: Client, p: Option<nat>, x: Reaction, phase: Phase) {
    && n.delivered == c.delivered + (if p.Some? then [p.value] else [])
    && n.lastEventId == (if p.Some? then p else c.lastEventId)
    && n.frames == c.frames + 1
    && (if x.throws then
          if c.settings.maxReconnects == 0 then n.phase == Returned && n.streak == []
          else n.phase == Sleeping && n.streak == [c.settings.backoffMs] && !n.stopped
        else if EndsPanel(x.event, c.settings.mode) then n.phase == Returned && n.stopped && n.streak == []
        else n.phase == phase && !n.stopped && n.streak == [])
  }

  /** A frame that arrives at a client not stopped is handed over, and ends the run exactly when it ends
      the session; otherwise the stream goes on at the next position, unless the handler throws, which
      takes the first wait. */
  lemma FrameIsHandedOver(s: System, x: Reaction)
    requires StreamClient.Enabled(s, FrameArrives(x)) && !s.client.stopped
    ensures var p := s.client.phase.mode.next;
      HandedOver(s.client, StreamClient.Step(s, FrameArrives(x)).client, Some(p), x, Reading(Some(p), Streaming(p + 1)))
  {
  }

  lemma DeltaIsHandedOver(s: System, x: Reaction)
    requires StreamClient.Enabled(s, DeltaArrives(x)) && !s.client.stopped
    ensures HandedOver(s.client, StreamClient.Step(s, DeltaArrives(x)).client, None, x, s.client.phase)
  {
  }

  /** An entry of a page is handed over exactly when it is later than the last one seen. */
  lemma EntryIsHandedOver(s: System, x: Reaction)
    requires StreamClient.Enabled(s, EntryTaken(x)) && !s.client.stopped
    ensures var c, n := s.client, StreamClient.Step(s, EntryTaken(x)).client;
      var m := c.phase.mode;
      var p, rest := m.entries[0], m.entries[1..];
      if p <= m.seenSeq then n == c.(phase := c.phase.(mode := m.(entries := rest)))
      else HandedOver(c, n, Some(p), x, c.phase.(mode := m.(seenSeq := p, entries := rest)))
  {
  }

  // ---- Giving up ----

  /** The client waits once more, for its time, or it has waited as often as it may and gives up. */
  ghost predicate WaitsOrGivesUp(c: Client, n: Client) {
    if |c.streak| < c.settings.maxReconnects then
      n.phase == Sleeping && n.streak == c.streak + [Wait(c.settings, |c.streak|)] && n.stopped == c.stopped
    else n.phase == Returned && |c.streak| == c.settings.maxReconnects && n.streak == c.streak
  }

  /** In every run, at a request that fails before it is made, a status that cannot be had, and a status
      that does not end the session, the client waits and reconnects exactly when fewer than
      `maxReconnects` waits lie since the last frame. */
  lemma GivesUpExactly(settings: Settings, resume: Option<nat>, head0: nat, es: seq<ClientEvent>, e: ClientEvent)
    requires var s := Run(settings, resume, head0, es); StreamClient.Enabled(s, e)
    ensures var s := Run(settings, resume, head0, es);
      var c, n := s.client, StreamClient.Step(s, e).client;
      && ((e == KeyFails || e == AskFails) && !c.stopped ==> WaitsOrGivesUp(c, n))
      && (e.SessionIs? ==>
            if e.status == Idle || e.status == Terminated then n.phase == Returned && n.stopped
            else WaitsOrGivesUp(c, n))
  {
    ReconnectsBounded(settings, resume, head0, es);
  }

  /** Someone or something told the client that this is the end. */
  predicate Ends(e: ClientEvent, mode: PanelMode) {
    match e
    case Stop => true
    case SessionIs(status) => status == Idle || status == Terminated
    case FrameArrives(x) => !x.throws && EndsPanel(x.event, mode)
    case DeltaArrives(x) => !x.throws && EndsPanel(x.event, mode)
    case EntryTaken(x) => !x.throws && EndsPanel(x.event, mode)
    case _ => false
  }

  ghost predicate Persists(c: Client) {
    && (c.stopped ==> c.phase == Returned)
    && (c.phase == Returned ==> |c.streak| == c.settings.maxReconnects)
  }

  lemma StepPersists(s: System, e: ClientEvent)
    requires Persists(s.client) && ReconnectOk(s.client) && StreamClient.Enabled(s, e) && !Ends(e, s.client.settings.mode)
    ensures Persists(StreamClient.Step(s, e).client)
  {
    match e {
      case FrameArrives(x) => if !s.client.stopped { FrameIsHandedOver(s, x); }
      case DeltaArrives(x) => if !s.client.stopped { DeltaIsHandedOver(s, x); }
      case EntryTaken(x) => if !s.client.stopped { EntryIsHandedOver(s, x); }
      case _ =>
    }
  }

  /** A client that has returned although nothing ended it waited exactly `maxReconnects` times since its
      last frame. */
  lemma {:induction false} ReturnsOnlyAfterAllWaits(
      settings: Settings, resume: Option<nat>, head0: nat, es: seq<ClientEvent>)
    requires forall i | 0 <= i < |es| :: !Ends(es[i], settings.mode)
    ensures var c := Run(settings, resume, head0, es).client;
      && Persists(c) && c.settings == settings
      && (c.phase == Returned ==> |c.streak| == settings.maxReconnects)
    decreases |es|
  {
    if es != [] {
      ReturnsOnlyAfterAllWaits(settings, resume, head0, es[..|es| - 1]);
      ReconnectsBounded(settings, resume, head0, es[..|es| - 1]);
      ReconnectsBounded(settings, resume, head0, es);
      var s := Run(settings, resume, head0, es[..|es| - 1]);
      if StreamClient.Enabled(s, es[|es| - 1]) { StepPersists(s, es[|es| - 1]); }
    }
  }

  // ---- Getting to the head ----

  const PLAIN := Reaction("agent.message", false)

  function PlainFrames(n: nat): seq<ClientEvent> { seq(n, i => FrameArrives(PLAIN)) }

  ghost predicate StreamingAt(s: System, count: nat, next: nat, head: nat) {
    && !s.client.stopped && s.client.phase.Reading? && s.client.phase.mode == Streaming(next)
    && s.head == head && |s.client.delivered| == count
  }

  /** A client on a connection is handed everything up to the head, one frame after the other; which
      positions those are, `DeliversInOrder` tells. */
  lemma {:induction false} FramesReachHead(s0: System, es: seq<ClientEvent>, count: nat, next: nat, n: nat, head: nat)
    requires StreamingAt(StreamClient.After(s0, es), count, next, head) && next + n <= head
    ensures StreamingAt(StreamClient.After(s0, es + PlainFrames(n)), count + n, next + n, head)
    decreases n
  {
    PlainSplit(es, n);
    if n > 0 {
      FramesReachHead(s0, es, count, next, n - 1, head);
      OneFrame(s0, es + PlainFrames(n - 1), count + n - 1, next + n - 1, head);
    }
  }

  lemma PlainSplit(es: seq<ClientEvent>, n: nat)
    ensures n == 0 ==> es + PlainFrames(n) == es
    ensures n > 0 ==> es + PlainFrames(n) == es + PlainFrames(n - 1) + [FrameArrives(PLAIN)]
  {
  }

  lemma OneFrame(s0: System, es: seq<ClientEvent>, count: nat, next: nat, head: nat)
    requires StreamingAt(StreamClient.After(s0, es), count, next, head) && next < head
    ensures StreamingAt(StreamClient.After(s0, es + [FrameArrives(PLAIN)]), count + 1, next + 1, head)
  {
    assert (es + [FrameArrives(PLAIN)])[..|es|] == es;
    FrameIsHandedOver(StreamClient.After(s0, es), PLAIN);
  }

  // ---- Polling ----

  /** A page that is read has the next fifty entries of the log from its cursor, or what there is. */
  lemma PageIsRead(settings: Settings, resume: Option<nat>, head0: nat, es: seq<ClientEvent>)
    requires ReplayStart(resume) <= head0
    requires StreamClient.Enabled(Run(settings, resume, head0, es), PageArrives)
    ensures var s := Run(settings, resume, head0, es);
      var m, n := s.client.phase.mode, StreamClient.Step(s, PageArrives).client;
      var from := if m.cursor.Some? then m.cursor.value else 0;
      var end := if from + 50 < s.head then from + 50 else s.head;
      && from <= s.head && n == s.client.(phase := n.phase) && n.phase.Reading?
      && n.phase.mode == Paging(m.seenSeq, Range(from, end), if end < s.head then Some(end) else None, s.head)
  {
    DeliveryHolds(settings, resume, head0, es);
    var s := Run(settings, resume, head0, es);
    PageIs(s.head, PAGE_LIMIT, s.client.phase.mode.cursor);
  }

  // ---- Going on ----

  /** A dropped connection is made again at once, from right after the last frame; an end of the stream
      asks for the session's status; a failed page starts the polling over, and neither uses up a wait. */
  lemma GoesOn(settings: Settings, resume: Option<nat>, head0: nat, es: seq<ClientEvent>, e: ClientEvent)
    requires ReplayStart(resume) <= head0
    requires StreamClient.Enabled(Run(settings, resume, head0, es), e)
    ensures var s := Run(settings, resume, head0, es);
      var c, n := s.client, StreamClient.Step(s, e).client;
      && (e == Drops ==> n == c.(phase := Reading(c.lastEventId, Connecting)))
      && (e == Unusable ==> n == c.(phase := Reading(c.lastEventId, Polling(Wanted(c) - 1, None))))
      && (e == Closes || e == TimesUp ==> n == c.(phase := if c.stopped then Returned else Asking))
      && (e == PageFails ==> n == c.(phase := n.phase) && n.phase.Reading? && n.phase.mode == Polling(Wanted(c) - 1, None))
      && (e == WakesUp ==> n == c.(phase := if c.stopped then Returned else Reading(c.lastEventId, Connecting)))
      && (e.Connected? && c.lastEventId.Some? ==> n == c.(phase := Reading(c.lastEventId, Streaming(Wanted(c)))))
  {
    DeliveryHolds(settings, resume, head0, es);
  }
}
