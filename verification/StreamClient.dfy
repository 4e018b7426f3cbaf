/** How the client follows a session: the stream with its reconnects, the polling fallback, and the
    outer loop that backs off and starts over. One step per await, or per frame handed over. */
module StreamClient {
  import opened Options
  import opened EventHistory
  import Delegation

  datatype Settings = Settings(mode: Delegation.PanelMode, maxReconnects: nat, backoffMs: nat, maxBackoffMs: nat)

  /** Page size of the history endpoint when none is asked for. */
  const PAGE_LIMIT: nat := 50

  /** Where `streamSession` stands. On a connection, `next` is the position the server sends next;
      while a page is handed over, `entries` is what is left of it, and `readAt`, as history, the head
      of the log it was read from. */
  datatype Mode =
    | Connecting
    | Streaming(next: nat)
    | Polling(seenSeq: int, cursor: Option<nat>)
    | Paging(seenSeq: int, entries: seq<nat>, nextCursor: Option<nat>, readAt: nat)

  /** Where `run` stands: reading frames off the generator with its own `lastId`, asking whether
      the session is done, sleeping before a reconnect, or returned. */
  datatype Phase = Reading(lastId: Option<nat>, mode: Mode) | Asking | Sleeping | Returned

  /** `delivered` is the history of the positions handed to `onFrame`; `frames` counts all frames
      handed over, `streak` the sleeps since the last of them, `sleeps` all sleeps. */
  datatype Client = Client(
    settings: Settings, lastEventId: Option<nat>, stopped: bool, attempts: nat, delay: nat, phase: Phase,
    delivered: seq<nat>, frames: nat, streak: seq<nat>, sleeps: nat)

  function Start(settings: Settings, resume: Option<nat>): Client {
    Client(settings, resume, false, 0, settings.backoffMs, Reading(resume, Connecting), [], 0, [], 0)
  }

  // ---- The outer loop ----

  function Backoff(c: Client): Client {
    if c.attempts + 1 > c.settings.maxReconnects then
      c.(attempts := c.attempts + 1, stopped := true, phase := Returned)
    else
      c.(attempts := c.attempts + 1, phase := Sleeping,
         streak := c.streak + [c.delay], sleeps := c.sleeps + 1,
         delay := if c.delay * 2 < c.settings.maxBackoffMs then c.delay * 2 else c.settings.maxBackoffMs)
  }

  /** The `catch` of the outer loop. */
  function Caught(c: Client): Client {
    if c.stopped then c.(phase := Returned) else Backoff(c)
  }

  /** The event of a frame, and whether the handler throws on it. */
  datatype Reaction = Reaction(event: string, throws: bool)

  /** What becomes of a frame: its end of the stream, a handler that throws, or neither. */
  datatype Verdict = GoesOn | Terminal | HandlerThrows

  function VerdictOn(mode: Delegation.PanelMode, x: Reaction): Verdict {
    if x.throws then HandlerThrows
    else if Delegation.ClassifyTerminal(x.event, mode).Some? then Terminal
    else GoesOn
  }

  /** The generator, now in `phase`, has yielded a frame. */
  function Handed(c: Client, phase: Phase, id: Option<nat>, x: Reaction): Client {
    if c.stopped then c.(phase := Returned)
    else
      var r := c.(lastEventId := if id.Some? then id else c.lastEventId,
                  attempts := 0, delay := c.settings.backoffMs, phase := phase,
                  delivered := if id.Some? then c.delivered + [id.value] else c.delivered,
                  frames := c.frames + 1, streak := []);
      match VerdictOn(c.settings.mode, x)
      case GoesOn => r
      case Terminal => r.(stopped := true, phase := Returned)
      case HandlerThrows => Caught(r)
  }

  /** The generator has returned. */
  function Ended(c: Client): Client {
    c.(phase := if c.stopped then Returned else Asking)
  }

  // ---- The steps ----

  datatype Event =
    | Append                              // the session emits an event
    | Connected(origin: nat)              // the stream request is served, from `origin` on
    | Unusable | KeyFails                 // it is not
    | FrameArrives(x: Reaction)           // the next position comes in on the connection
    | DeltaArrives(x: Reaction)           // a frame without a position
    | Drops | Closes                      // the reader throws; the server closes
    | TimesUp                             // the deadline has passed
    | PageArrives | PageFails
    | EntryTaken(x: Reaction)             // the next entry of the page
    | PageDone
    | SessionIs(status: Delegation.Status) | AskFails
    | WakesUp
    | Stop

  datatype System = System(client: Client, head: nat)

  predicate Enabled(s: System, e: Event) {
    var p := s.client.phase;
    match e
    case Append => true
    case Stop => true
    case Connected(origin) => p.Reading? && p.mode == Connecting && MayServeFrom(p.lastId, s.head, origin)
    case Unusable => p.Reading? && p.mode == Connecting
    case KeyFails => p.Reading? && p.mode == Connecting
    case FrameArrives(_) => p.Reading? && p.mode.Streaming? && p.mode.next < s.head
    case DeltaArrives(_) => p.Reading? && p.mode.Streaming?
    case Drops => p.Reading? && p.mode.Streaming?
    case Closes => p.Reading? && p.mode.Streaming?
    case TimesUp => p.Reading? && (p.mode == Connecting || p.mode.Polling?)
    case PageArrives => p.Reading? && p.mode.Polling?
    case PageFails => p.Reading? && p.mode.Polling?
    case EntryTaken(_) => p.Reading? && p.mode.Paging? && p.mode.entries != []
    case PageDone => p.Reading? && p.mode.Paging? && p.mode.entries == []
    case SessionIs(_) => p == Asking
    case AskFails => p == Asking
    case WakesUp => p == Sleeping
  }

  function SeenAt(lastId: Option<nat>): int { if lastId.Some? then lastId.value else -1 }

  /** One entry of a page: an entry seen before is skipped. */
  function TakenEntry(c: Client, x: Reaction): Client
    requires c.phase.Reading? && c.phase.mode.Paging? && c.phase.mode.entries != []
  {
    var m := c.phase.mode;
    if m.entries[0] <= m.seenSeq then c.(phase := c.phase.(mode := m.(entries := m.entries[1..])))
    else
      Handed(c, c.phase.(mode := m.(seenSeq := m.entries[0], entries := m.entries[1..])), Some(m.entries[0]), x)
  }

  function Moved(c: Client, e: Event, head: nat): Client
    requires Enabled(System(c, head), e)
  {
    match e
    case Append => c
    case Stop => c.(stopped := true)
    case Connected(origin) => c.(phase := c.phase.(mode := Streaming(origin)))
    case Unusable => c.(phase := c.phase.(mode := Polling(SeenAt(c.phase.lastId), None)))
    case KeyFails => Caught(c)
    case FrameArrives(x) =>
      var next := c.phase.mode.next;
      Handed(c, Reading(Some(next), Streaming(next + 1)), Some(next), x)
    case DeltaArrives(x) => Handed(c, c.phase, None, x)
    case Drops => c.(phase := c.phase.(mode := Connecting))
    case Closes => Ended(c)
    case TimesUp => Ended(c)
    case PageArrives =>
      var p := HistoryPage(head, PAGE_LIMIT, c.phase.mode.cursor);
      c.(phase := c.phase.(mode := Paging(c.phase.mode.seenSeq, p.data, p.nextCursor, head)))
    case PageFails => c.(phase := c.phase.(mode := c.phase.mode.(cursor := None)))
    case EntryTaken(x) => TakenEntry(c, x)
    case PageDone => c.(phase := c.phase.(mode := Polling(c.phase.mode.seenSeq, c.phase.mode.nextCursor)))
    case SessionIs(status) =>
      if Delegation.IsTerminalStatus(status) then c.(stopped := true, phase := Returned) else Backoff(c)
    case AskFails => Caught(c)
    case WakesUp => c.(phase := if c.stopped then Returned else Reading(c.lastEventId, Connecting))
  }

  function Step(s: System, e: Event): System
    requires Enabled(s, e)
  {
    System(Moved(s.client, e, s.head), if e == Append then s.head + 1 else s.head)
  }

  function After(s: System, es: seq<Event>): System
    decreases |es|
  {
    if es == [] then s
    else
      var before := After(s, es[..|es| - 1]);
      if Enabled(before, es[|es| - 1]) then Step(before, es[|es| - 1]) else before
  }

  // ---- Delivery ----

  /** The position wanted next. */
  function Wanted(c: Client): nat { ReplayStart(c.lastEventId) }

  /** A client that starts from an event seen, or with a log that is not empty. */
  predicate Anchored(resume: Option<nat>, head: nat) { resume.Some? || 0 < head }

  /** The generator hands over the wanted position next, unless `free` to begin anywhere; and in
      polling it never looks past it: the cursor is at most one beyond the last entry seen. */
  ghost predicate ModeOk(m: Mode, wanted: nat, free: bool) {
    match m
    case Connecting => true
    case Streaming(next) => next == wanted || free
    case Polling(seen, cursor) => seen + 1 == wanted && (cursor.Some? ==> cursor.value <= wanted)
    case Paging(seen, entries, nextCursor, readAt) =>
      && seen + 1 == wanted
      && (nextCursor.None? ==> readAt <= if entries == [] then wanted else entries[0] + |entries|)
      && (entries != [] ==> entries[0] <= wanted)
      && (forall i | 0 <= i < |entries| :: entries[i] == entries[0] + i)
      && (nextCursor.Some? ==> nextCursor.value <= if entries == [] then wanted else entries[0] + |entries|)
  }

  /** The first position delivered, or the one wanted first. */
  function FirstOf(c: Client, resume: Option<nat>): nat {
    if c.delivered == [] then ReplayStart(resume) else c.delivered[0]
  }

  ghost predicate DeliveryOk(s: System, resume: Option<nat>, head0: nat) {
    var c := s.client;
    && head0 <= s.head
    && c.delivered == Range(FirstOf(c, resume), Wanted(c))
    && FirstOf(c, resume) <= Wanted(c) <= s.head
    && (Anchored(resume, head0) ==> FirstOf(c, resume) == ReplayStart(resume))
    && (c.delivered == [] ==> c.lastEventId == resume)
    && (c.phase.Reading? ==>
          && ModeOk(c.phase.mode, Wanted(c), !Anchored(resume, head0) && c.delivered == [])
          && (c.phase.mode == Connecting || c.phase.mode.Streaming? ==> c.phase.lastId == c.lastEventId)
          && (c.phase.mode.Paging? ==> forall i | 0 <= i < |c.phase.mode.entries| :: c.phase.mode.entries[i] < s.head))
  }

  /** Position `p` is handed over, and the generator goes on in `phase`. */
  function Delivered(c: Client, phase: Phase, p: nat): Client {
    c.(lastEventId := Some(p), attempts := 0, delay := c.settings.backoffMs, phase := phase,
       delivered := c.delivered + [p], frames := c.frames + 1, streak := [])
  }

  lemma DeliveredKeeps(s: System, phase: Phase, p: nat, resume: Option<nat>, head0: nat)
    requires DeliveryOk(s, resume, head0) && p < s.head
    requires p == Wanted(s.client) || (!Anchored(resume, head0) && s.client.delivered == [])
    requires phase.Reading? && ModeOk(phase.mode, p + 1, false)
    requires phase.mode == Connecting || phase.mode.Streaming? ==> phase.lastId == Some(p)
    requires phase.mode.Paging? ==> forall i | 0 <= i < |phase.mode.entries| :: phase.mode.entries[i] < s.head
    ensures DeliveryOk(System(Delivered(s.client, phase, p), s.head), resume, head0)
  {
    var c := s.client;
    if c.delivered != [] { RangeSnoc(c.delivered[0], p); } else { RangeSnoc(p, p); }
  }

  /** What the outer loop does with an outcome leaves the deliveries alone. */
  lemma OuterKeeps(s: System, resume: Option<nat>, head0: nat)
    requires DeliveryOk(s, resume, head0)
    ensures DeliveryOk(System(Caught(s.client), s.head), resume, head0)
    ensures DeliveryOk(System(s.client.(stopped := true, phase := Returned), s.head), resume, head0)
    ensures DeliveryOk(System(s.client.(phase := Returned), s.head), resume, head0)
  {
  }

  lemma HandedKeeps(s: System, phase: Phase, p: nat, x: Reaction, resume: Option<nat>, head0: nat)
    requires DeliveryOk(s, resume, head0) && p < s.head
    requires p == Wanted(s.client) || (!Anchored(resume, head0) && s.client.delivered == [])
    requires phase.Reading? && ModeOk(phase.mode, p + 1, false)
    requires phase.mode == Connecting || phase.mode.Streaming? ==> phase.lastId == Some(p)
    requires phase.mode.Paging? ==> forall i | 0 <= i < |phase.mode.entries| :: phase.mode.entries[i] < s.head
    ensures DeliveryOk(System(Handed(s.client, phase, Some(p), x), s.head), resume, head0)
  {
    DeliveredKeeps(s, phase, p, resume, head0);
    OuterKeeps(s, resume, head0);
    OuterKeeps(System(Delivered(s.client, phase, p), s.head), resume, head0);
  }

  lemma EntryKeeps(s: System, x: Reaction, resume: Option<nat>, head0: nat)
    requires DeliveryOk(s, resume, head0) && Enabled(s, EntryTaken(x))
    ensures DeliveryOk(Step(s, EntryTaken(x)), resume, head0)
  {
    var c := s.client;
    var m := c.phase.mode;
    var rest := m.entries[1..];
    if m.entries[0] > m.seenSeq {
      HandedKeeps(s, c.phase.(mode := m.(seenSeq := m.entries[0], entries := rest)), m.entries[0], x, resume, head0);
    }
  }

  lemma PageArrivesKeeps(s: System, resume: Option<nat>, head0: nat)
    requires DeliveryOk(s, resume, head0) && Enabled(s, PageArrives)
    ensures DeliveryOk(Step(s, PageArrives), resume, head0)
  {
    PageIs(s.head, PAGE_LIMIT, s.client.phase.mode.cursor);
  }

  lemma FrameKeeps(s: System, x: Reaction, resume: Option<nat>, head0: nat)
    requires DeliveryOk(s, resume, head0) && Enabled(s, FrameArrives(x))
    ensures DeliveryOk(Step(s, FrameArrives(x)), resume, head0)
  {
    var next := s.client.phase.mode.next;
    HandedKeeps(s, Reading(Some(next), Streaming(next + 1)), next, x, resume, head0);
  }

  lemma DeltaKeeps(s: System, x: Reaction, resume: Option<nat>, head0: nat)
    requires DeliveryOk(s, resume, head0) && Enabled(s, DeltaArrives(x))
    ensures DeliveryOk(Step(s, DeltaArrives(x)), resume, head0)
  {
  }

  lemma ConnectedKeeps(s: System, origin: nat, resume: Option<nat>, head0: nat)
    requires DeliveryOk(s, resume, head0) && Enabled(s, Connected(origin))
    ensures DeliveryOk(Step(s, Connected(origin)), resume, head0)
  {
  }

  lemma StepDelivers(s: System, e: Event, resume: Option<nat>, head0: nat)
    requires DeliveryOk(s, resume, head0) && Enabled(s, e)
    ensures DeliveryOk(Step(s, e), resume, head0)
  {
    match e {
      case Connected(origin) => ConnectedKeeps(s, origin, resume, head0);
      case FrameArrives(x) => FrameKeeps(s, x, resume, head0);
      case DeltaArrives(x) => DeltaKeeps(s, x, resume, head0);
      case EntryTaken(x) => EntryKeeps(s, x, resume, head0);
      case PageArrives => PageArrivesKeeps(s, resume, head0);
      case _ => RestKeeps(s, e, resume, head0);
    }
  }

  /** The other steps deliver nothing. */
  lemma RestKeeps(s: System, e: Event, resume: Option<nat>, head0: nat)
    requires DeliveryOk(s, resume, head0) && Enabled(s, e)
    requires !e.Connected? && !e.FrameArrives? && !e.DeltaArrives? && !e.EntryTaken? && !e.PageArrives?
    ensures DeliveryOk(Step(s, e), resume, head0)
  {
  }

  lemma {:induction false} DeliveryHolds(settings: Settings, resume: Option<nat>, head0: nat, es: seq<Event>)
    requires ReplayStart(resume) <= head0
    ensures DeliveryOk(After(System(Start(settings, resume), head0), es), resume, head0)
    decreases |es|
  {
    if es != [] {
      DeliveryHolds(settings, resume, head0, es[..|es| - 1]);
      var before := After(System(Start(settings, resume), head0), es[..|es| - 1]);
      if Enabled(before, es[|es| - 1]) { StepDelivers(before, es[|es| - 1], resume, head0); }
    }
  }

  /** Across any mix of drops, reconnects, fallbacks to polling, failed pages, waits and restarts,
      the positions handed to `onFrame` are consecutive: none is skipped between two, none comes
      twice. They start right after the resume point, or at the start of a log that is not empty. */
  lemma DeliversInOrder(settings: Settings, resume: Option<nat>, head0: nat, es: seq<Event>)
    requires ReplayStart(resume) <= head0
    ensures var s := After(System(Start(settings, resume), head0), es);
      var c := s.client;
      && (c.delivered != [] ==> c.delivered == Range(c.delivered[0], c.delivered[0] + |c.delivered|))
      && (Anchored(resume, head0) ==>
            c.delivered == Range(ReplayStart(resume), ReplayStart(resume) + |c.delivered|))
      && (forall i | 0 <= i < |c.delivered| :: c.delivered[i] < s.head)
  {
    DeliveryHolds(settings, resume, head0, es);
  }

  /** Where a chain of pages ends, at one without a successor, everything has been delivered that was in
      the log when that page was read: from the start, or from wherever the client had begun. */
  lemma PollingReachesHead(settings: Settings, resume: Option<nat>, head0: nat, es: seq<Event>)
    requires ReplayStart(resume) <= head0
    requires var s := After(System(Start(settings, resume), head0), es);
      Enabled(s, PageDone) && s.client.phase.mode.nextCursor == None
    ensures var c := After(System(Start(settings, resume), head0), es).client;
      && c.phase.mode.readAt <= FirstOf(c, resume) + |c.delivered|
      && c.delivered == Range(FirstOf(c, resume), FirstOf(c, resume) + |c.delivered|)
  {
    DeliveryHolds(settings, resume, head0, es);
  }

  ghost predicate NothingSkipped(c: Client, resume: Option<nat>) {
    c.delivered == Range(ReplayStart(resume), ReplayStart(resume) + |c.delivered|)
  }

  /** Against the server as it is, nothing is ever skipped exactly when the client starts anchored:
      on an empty log the first connection may be served from a later position on. */
  lemma DeliversAllExactly(settings: Settings, resume: Option<nat>, head0: nat)
    requires ReplayStart(resume) <= head0
    ensures Anchored(resume, head0) <==>
      forall es: seq<Event> :: NothingSkipped(After(System(Start(settings, resume), head0), es).client, resume)
  {
    if Anchored(resume, head0) {
      forall es: seq<Event> ensures NothingSkipped(After(System(Start(settings, resume), head0), es).client, resume) {
        DeliversInOrder(settings, resume, head0, es);
      }
    } else {
      var es := FirstSkipped(settings);
    }
  }

  /** The client that misses position 0: it connects to an empty log and is served from 1 on. */
  lemma FirstSkipped(settings: Settings) returns (es: seq<Event>)
    ensures After(System(Start(settings, None), 0), es).client.delivered == [1]
    ensures !NothingSkipped(After(System(Start(settings, None), 0), es).client, None)
  {
    var s := System(Start(settings, None), 0);
    var x := Reaction("agent.message", false);
    es := [Connected(1), Append, Append, FrameArrives(x)];
    AfterPrefix(s, es, 0);
    AfterPrefix(s, es, 1);
    AfterPrefix(s, es, 2);
    AfterPrefix(s, es, 3);
    assert es[..0] == [] && es[..4] == es;
    assert After(s, es[..3]) == System(s.client.(phase := Reading(None, Streaming(1))), 2);
    var c := After(s, es).client;
    assert c.delivered == [1];
    assert c.delivered[0] == 1 && Range(0, 1)[0] == 0;
  }

  lemma AfterPrefix(s: System, es: seq<Event>, k: nat)
    requires k < |es|
    ensures var b := After(s, es[..k]);
      After(s, es[..k + 1]) == if Enabled(b, es[k]) then Step(b, es[k]) else b
  {
    assert es[..k + 1][..k] == es[..k];
  }

  // ---- Reconnects ----

  function Pow2(n: nat): nat { if n == 0 then 1 else 2 * Pow2(n - 1) }

  /** The wait before the `j`-th reconnect of a streak, counting from zero. The first is the base
      itself, even above the maximum; the others double up to it. */
  function Wait(l: Settings, j: nat): nat {
    if j == 0 || l.backoffMs * Pow2(j) < l.maxBackoffMs then l.backoffMs * Pow2(j) else l.maxBackoffMs
  }

  ghost predicate ReconnectOk(c: Client) {
    && |c.streak| <= c.settings.maxReconnects
    && (c.phase != Returned ==> |c.streak| == c.attempts && c.delay == Wait(c.settings, c.attempts))
    && (forall j | 0 <= j < |c.streak| :: c.streak[j] == Wait(c.settings, j))
    && c.sleeps <= c.frames * c.settings.maxReconnects + |c.streak|
  }

  /** Doubling the wait, up to the maximum, gives the next one. */
  lemma WaitDoubles(l: Settings, j: nat)
    ensures Wait(l, j + 1) ==
      if Wait(l, j) * 2 < l.maxBackoffMs then Wait(l, j) * 2 else l.maxBackoffMs
  {
    assert l.backoffMs * Pow2(j + 1) == l.backoffMs * Pow2(j) * 2;
  }

  lemma BackoffKeeps(c: Client)
    requires ReconnectOk(c) && c.phase != Returned
    ensures ReconnectOk(Backoff(c))
  {
    WaitDoubles(c.settings, c.attempts);
  }

  lemma HandedReconnects(c: Client, phase: Phase, id: Option<nat>, x: Reaction)
    requires ReconnectOk(c) && c.phase != Returned && phase != Returned
    ensures ReconnectOk(Handed(c, phase, id, x))
  {
    var m := c.settings.maxReconnects;
    assert c.frames * m + |c.streak| <= (c.frames + 1) * m by { assert (c.frames + 1) * m == c.frames * m + m; }
    if !c.stopped {
      var r := c.(lastEventId := if id.Some? then id else c.lastEventId,
                  attempts := 0, delay := c.settings.backoffMs, phase := phase,
                  delivered := if id.Some? then c.delivered + [id.value] else c.delivered,
                  frames := c.frames + 1, streak := []);
      assert ReconnectOk(r);
      if VerdictOn(c.settings.mode, x) == HandlerThrows { BackoffKeeps(r); }
    }
  }

  lemma StepReconnects(s: System, e: Event)
    requires ReconnectOk(s.client) && Enabled(s, e)
    ensures ReconnectOk(Step(s, e).client)
  {
    var c := s.client;
    match e {
      case KeyFails => if !c.stopped { BackoffKeeps(c); }
      case FrameArrives(x) =>
        HandedReconnects(c, Reading(Some(c.phase.mode.next), Streaming(c.phase.mode.next + 1)), Some(c.phase.mode.next), x);
      case DeltaArrives(x) => HandedReconnects(c, c.phase, None, x);
      case EntryTaken(x) =>
        var m := c.phase.mode;
        HandedReconnects(c, c.phase.(mode := m.(seenSeq := m.entries[0], entries := m.entries[1..])), Some(m.entries[0]), x);
      case SessionIs(status) => if !Delegation.IsTerminalStatus(status) { BackoffKeeps(c); }
      case AskFails => if !c.stopped { BackoffKeeps(c); }
      case _ =>
    }
  }

  /** Between two frames there are at most `maxReconnects` sleeps, each of its own length; over a
      whole run with F frames, at most (F + 1) times as many. */
  lemma {:induction false} ReconnectsBounded(settings: Settings, resume: Option<nat>, head: nat, es: seq<Event>)
    ensures var c := After(System(Start(settings, resume), head), es).client;
      && c.settings == settings && ReconnectOk(c)
      && |c.streak| <= settings.maxReconnects
      && c.sleeps <= (c.frames + 1) * settings.maxReconnects
      && (forall j | 0 <= j < |c.streak| :: c.streak[j] == Wait(settings, j))
    decreases |es|
  {
    if es != [] {
      ReconnectsBounded(settings, resume, head, es[..|es| - 1]);
      var before := After(System(Start(settings, resume), head), es[..|es| - 1]);
      if Enabled(before, es[|es| - 1]) { StepReconnects(before, es[|es| - 1]); }
    }
    var c := After(System(Start(settings, resume), head), es).client;
    assert (c.frames + 1) * settings.maxReconnects == c.frames * settings.maxReconnects + settings.maxReconnects;
  }

  /** Every wait is the doubled base capped at the maximum exactly when the base is within it. */
  lemma WaitsCapped(l: Settings)
    ensures l.backoffMs <= l.maxBackoffMs <==>
      forall j: nat :: Wait(l, j) == if l.backoffMs * Pow2(j) < l.maxBackoffMs then l.backoffMs * Pow2(j) else l.maxBackoffMs
  {
    assert l.backoffMs * Pow2(0) == l.backoffMs;
    if l.backoffMs > l.maxBackoffMs { assert Wait(l, 0) == l.backoffMs; }
  }
}
