/** One connection of the event stream on the server: the live tail is subscribed to first, the log
    is replayed page by page, and the tail is then cleared of what the replay covered. One step per
    await, with events appended in between. */
module StreamServer {
  import opened Options
  import opened EventHistory

  type PageSize = n: nat | 1 <= n witness 1

  datatype Request = Request(live: bool, lastEventId: Option<nat>, from: nat, pageSize: PageSize)

  /** Where the replay starts: the header wins over the parameter. */
  function First(r: Request): nat {
    if r.lastEventId.Some? then r.lastEventId.value + 1 else r.from
  }

  datatype Pc = Paging(start: nat) | AtHead | Tail(next: nat) | Closed

  /** `last` is the position replayed last; `sent` the positions sent; `queue` what the subscription
      holds back; `headRead` the head that an empty replay went on from. */
  datatype Connection = Connection(
    pc: Pc, last: Option<nat>, sent: seq<nat>, queue: seq<nat>, headRead: Option<nat>)

  datatype World = World(head: nat, conn: Connection)

  datatype Event =
    | Append                   // the session emits an event
    | ReadPage                 // a page is read, and all its frames are written
    | LosePage(written: nat)   // the client goes away after some of them
    | ReadHead
    | Deliver                  // the subscription yields its oldest event
    | Close

  function Opened(r: Request, head: nat): World { World(head, Connection(Paging(First(r)), None, [], [], None)) }

  function Count(r: Request, head: nat, start: nat): nat { |ReadEvents(head, Some(start), r.pageSize)| }

  predicate Enabled(r: Request, w: World, e: Event) {
    match e
    case Append => true
    case ReadPage => w.conn.pc.Paging?
    case LosePage(written) => w.conn.pc.Paging? && written < Count(r, w.head, w.conn.pc.start)
    case ReadHead => w.conn.pc == AtHead
    case Deliver => w.conn.pc.Tail? && w.conn.queue != []
    case Close => true
  }

  /** After a short page: on from the last position replayed, from the header, or from the head. */
  function Replayed(r: Request, last: Option<nat>): Pc {
    if last.Some? then Live(r, last.value + 1)
    else if r.lastEventId.Some? then Live(r, r.lastEventId.value + 1)
    else AtHead
  }

  /** Without a runtime the stream ends with the history. */
  function Live(r: Request, next: nat): Pc { if r.live then Tail(next) else Closed }

  function Step(r: Request, w: World, e: Event): World
    requires Enabled(r, w, e)
  {
    var c := w.conn;
    match e
    case Append => World(w.head + 1, if r.live then c.(queue := c.queue + [w.head]) else c)
    case ReadPage =>
      var entries := ReadEvents(w.head, Some(c.pc.start), r.pageSize);
      var last := if entries == [] then c.last else Some(entries[|entries| - 1]);
      var pc := if |entries| < r.pageSize then Replayed(r, last) else Paging(entries[|entries| - 1] + 1);
      w.(conn := c.(pc := pc, last := last, sent := c.sent + entries))
    case LosePage(written) =>
      w.(conn := c.(pc := Closed, sent := c.sent + ReadEvents(w.head, Some(c.pc.start), r.pageSize)[..written]))
    case ReadHead => w.(conn := c.(pc := Live(r, w.head), headRead := Some(w.head)))
    case Deliver =>
      var p := c.queue[0];
      if p < c.pc.next then w.(conn := c.(queue := c.queue[1..]))
      else w.(conn := c.(pc := Tail(p + 1), queue := c.queue[1..], sent := c.sent + [p]))
    case Close => w.(conn := c.(pc := Closed))
  }

  /** An event that cannot happen changes nothing. */
  function Then(r: Request, w: World, e: Event): World { if Enabled(r, w, e) then Step(r, w, e) else w }

  ghost function After(r: Request, head: nat, es: seq<Event>): World
    decreases |es|
  {
    if es == [] then Opened(r, head)
    else Then(r, After(r, head, es[..|es| - 1]), es[|es| - 1])
  }

  /** The position the sent ones count from. */
  function Origin(r: Request, c: Connection): nat {
    if c.headRead.Some? then c.headRead.value else First(r)
  }

  /** The request names a place the log has reached: an event seen, or one already in the log. */
  predicate Anchored(r: Request, head: nat) { r.lastEventId.Some? || r.from < head }

  ghost predicate Consecutive(r: Request, c: Connection) {
    From(c.sent, Origin(r, c))
  }

  /** The positions from `lo` on, one after the other. */
  ghost predicate From(s: seq<nat>, lo: int) { forall i | 0 <= i < |s| :: s[i] == lo + i }

  lemma FromIsRange(s: seq<nat>, lo: nat)
    ensures From(s, lo) <==> s == Range(lo, lo + |s|)
  {
  }

  ghost predicate Queued(r: Request, w: World) {
    && |w.conn.queue| <= w.head && From(w.conn.queue, w.head - |w.conn.queue|)
    && (!r.live ==> w.conn.queue == [] && !w.conn.pc.Tail? && (w.conn.headRead.Some? ==> w.conn.sent == []))
  }

  /** `head0` is the head when the connection was opened. */
  ghost predicate Inv(r: Request, head0: nat, w: World) {
    var c := w.conn;
    && head0 <= w.head && Consecutive(r, c) && Queued(r, w)
    && (Anchored(r, head0) ==> c.headRead == None && c.pc != AtHead)
    && match c.pc
       case Paging(start) =>
         && c.headRead == None && start == First(r) + |c.sent|
         && c.last == (if c.sent == [] then None else Some(start - 1))
       case AtHead => c.headRead == None && c.sent == []
       case Tail(next) => next == Origin(r, c) + |c.sent| && w.head - |c.queue| <= next
       case Closed => true
  }

  lemma ReadIs(head: nat, start: nat, limit: nat)
    ensures var n := |ReadEvents(head, Some(start), limit)|;
      && ReadEvents(head, Some(start), limit) == Range(start, start + n)
      && n <= limit && (n < limit ==> start + n >= head) && (n > 0 ==> start + n <= head)
  {
  }

  lemma PageKeeps(r: Request, head0: nat, w: World)
    requires Inv(r, head0, w) && w.conn.pc.Paging?
    ensures Inv(r, head0, Step(r, w, ReadPage))
  {
    ReadIs(w.head, w.conn.pc.start, r.pageSize);
  }

  lemma LoseKeeps(r: Request, head0: nat, w: World, written: nat)
    requires Inv(r, head0, w) && Enabled(r, w, LosePage(written))
    ensures Inv(r, head0, Step(r, w, LosePage(written)))
  {
    ReadIs(w.head, w.conn.pc.start, r.pageSize);
  }

  lemma DeliverKeeps(r: Request, head0: nat, w: World)
    requires Inv(r, head0, w) && Enabled(r, w, Deliver)
    ensures Inv(r, head0, Step(r, w, Deliver))
  {
  }

  lemma AppendKeeps(r: Request, head0: nat, w: World)
    requires Inv(r, head0, w)
    ensures Inv(r, head0, Step(r, w, Append))
  {
  }

  lemma ReadHeadKeeps(r: Request, head0: nat, w: World)
    requires Inv(r, head0, w) && Enabled(r, w, ReadHead)
    ensures Inv(r, head0, Step(r, w, ReadHead))
  {
  }

  lemma CloseKeeps(r: Request, head0: nat, w: World)
    requires Inv(r, head0, w)
    ensures Inv(r, head0, Step(r, w, Close))
  {
  }

  lemma {:induction false} InvHolds(r: Request, head0: nat, es: seq<Event>)
    ensures Inv(r, head0, After(r, head0, es))
    decreases |es|
  {
    if es != [] {
      var w, e := After(r, head0, es[..|es| - 1]), es[|es| - 1];
      InvHolds(r, head0, es[..|es| - 1]);
      if Enabled(r, w, e) {
        match e
        case Append => AppendKeeps(r, head0, w);
        case ReadPage => PageKeeps(r, head0, w);
        case LosePage(written) => LoseKeeps(r, head0, w, written);
        case ReadHead => ReadHeadKeeps(r, head0, w);
        case Deliver => DeliverKeeps(r, head0, w);
        case Close => CloseKeeps(r, head0, w);
      }
    }
  }

  /** A reconnect after an event seen, or a first connection to a log that has reached the start
      asked for, is sent the positions from there on, without gaps or repeats, however the replay,
      the live tail and new events interleave; and a tail with nothing held back has sent all. */
  lemma GapFree(r: Request, head0: nat, es: seq<Event>)
    requires Anchored(r, head0)
    ensures var w := After(r, head0, es);
      && w.conn.sent == Range(First(r), First(r) + |w.conn.sent|)
      && (w.conn.pc.Tail? && w.conn.queue == [] ==> First(r) + |w.conn.sent| >= w.head)
  {
    InvHolds(r, head0, es);
  }

  /** In any case nothing is sent twice or out of order; and unless a first connection found nothing
      to replay and then another head than the start it asked for, nothing is left out. */
  lemma GapFreeUnlessHeadMoved(r: Request, head0: nat, es: seq<Event>)
    ensures var c := After(r, head0, es).conn;
      && (forall i, j | 0 <= i < j < |c.sent| :: c.sent[i] < c.sent[j])
      && (c.sent == Range(First(r), First(r) + |c.sent|)
          <==> c.sent == [] || c.headRead == None || c.headRead == Some(First(r)))
  {
    InvHolds(r, head0, es);
    var c := After(r, head0, es).conn;
    FromOne(c.sent, Origin(r, c), First(r));
  }

  lemma FromOne(s: seq<nat>, lo: nat, other: nat)
    requires From(s, lo)
    ensures forall i, j | 0 <= i < j < |s| :: s[i] < s[j]
    ensures s == Range(other, other + |s|) <==> s == [] || lo == other
  {
    FromIsRange(s, other);
    if s != [] { assert s[0] == lo; }
  }

  lemma RangesAgree(lo: nat, other: nat, n: nat)
    ensures Range(lo, lo + n) == Range(other, other + n) <==> n == 0 || lo == other
  {
    if n > 0 { assert Range(lo, lo + n)[0] == lo && Range(other, other + n)[0] == other; }
  }

  // ---- A first connection that finds nothing to replay ----

  lemma AfterPrefix(r: Request, head: nat, es: seq<Event>, k: nat)
    requires k < |es|
    ensures After(r, head, es[..k + 1]) == Then(r, After(r, head, es[..k]), es[k])
  {
    assert es[..k + 1][..k] == es[..k];
  }

  lemma AfterThree(r: Request, head: nat, es: seq<Event>, e1: Event, e2: Event, e3: Event)
    ensures After(r, head, es + [e1, e2, e3]) == Then(r, Then(r, Then(r, After(r, head, es), e1), e2), e3)
  {
    var all := es + [e1, e2, e3];
    var n := |es|;
    AfterPrefix(r, head, all, n);
    AfterPrefix(r, head, all, n + 1);
    AfterPrefix(r, head, all, n + 2);
    assert all[..n] == es && all[..n + 3] == all;
  }

  function AtTail(head: nat, next: nat, sent: seq<nat>, queue: seq<nat>, headRead: nat): World {
    World(head, Connection(Tail(next), None, sent, queue, Some(headRead)))
  }

  predicate Unanchored(r: Request, head: nat) { r.live && r.lastEventId == None && head <= r.from }

  lemma EmptyReplay(r: Request, head: nat)
    requires Unanchored(r, head)
    ensures Then(r, Opened(r, head), ReadPage) == World(head, Connection(AtHead, None, [], [], None))
  {
  }

  lemma HeadReadLate(r: Request, head: nat)
    requires Unanchored(r, head)
    ensures Then(r, Then(r, Then(r, Opened(r, head), ReadPage), Append), ReadHead)
         == AtTail(head + 1, head + 1, [], [head], head + 1)
  {
    EmptyReplay(r, head);
  }

  lemma HeldEventDropped(r: Request, head: nat)
    requires Unanchored(r, head)
    ensures var w := AtTail(head + 1, head + 1, [], [head], head + 1);
      Then(r, Then(r, Then(r, w, Append), Deliver), Deliver) == AtTail(head + 2, head + 2, [head + 1], [], head + 1)
  {
    var w := Then(r, AtTail(head + 1, head + 1, [], [head], head + 1), Append);
    assert w.conn.queue == [head, head + 1];
    assert Then(r, w, Deliver) == AtTail(head + 2, head + 1, [], [head + 1], head + 1);
  }

  /** An event appended between the empty page and the reading of the head is never sent, although
      the subscription held it. */
  lemma NextEventLost(r: Request, head: nat)
    requires Unanchored(r, head)
    ensures After(r, head, [ReadPage, Append, ReadHead] + [Append, Deliver, Deliver])
         == AtTail(head + 2, head + 2, [head + 1], [], head + 1)
  {
    var es := [ReadPage, Append, ReadHead];
    AfterThree(r, head, [], ReadPage, Append, ReadHead);
    assert [] + es == es;
    HeadReadLate(r, head);
    AfterThree(r, head, es, Append, Deliver, Deliver);
    HeldEventDropped(r, head);
  }

  /** On an empty log that is the first event of the session. */
  lemma FirstEventLost()
    ensures var r := Request(true, None, 0, 500);
      var w := After(r, 0, [ReadPage, Append, ReadHead] + [Append, Deliver, Deliver]);
      w.head == 2 && w.conn.queue == [] && w.conn.sent == [1]
  {
    NextEventLost(Request(true, None, 0, 500), 0);
  }

  /** A start beyond the head is not kept to either. */
  lemma StartIgnored(r: Request, head: nat)
    requires Unanchored(r, head) && head < r.from
    ensures After(r, head, [ReadPage, ReadHead, Append] + [Deliver, Close, Close]).conn.sent == [head]
  {
    EmptyReplay(r, head);
    AfterThree(r, head, [], ReadPage, ReadHead, Append);
    assert [] + [ReadPage, ReadHead, Append] == [ReadPage, ReadHead, Append];
    assert After(r, head, [ReadPage, ReadHead, Append]) == AtTail(head + 1, head, [], [head], head);
    AfterThree(r, head, [ReadPage, ReadHead, Append], Deliver, Close, Close);
  }

  /** The requests that are always served without a gap are those that resume after an event, those
      for a start the log has reached, and those for the history only. */
  lemma GapFreeExactly(r: Request, head0: nat)
    ensures Anchored(r, head0) || !r.live <==>
      forall es: seq<Event> ::
        After(r, head0, es).conn.sent == Range(First(r), First(r) + |After(r, head0, es).conn.sent|)
  {
    if Anchored(r, head0) || !r.live {
      forall es: seq<Event>
        ensures After(r, head0, es).conn.sent == Range(First(r), First(r) + |After(r, head0, es).conn.sent|)
      {
        InvHolds(r, head0, es);
      }
    } else if head0 < r.from {
      StartIgnored(r, head0);
      RangesAgree(head0, First(r), 1);
    } else {
      NextEventLost(r, head0);
      RangesAgree(head0 + 1, First(r), 1);
    }
  }

  /** What a client of the stream, which never asks for a start, can rely on. */
  lemma ServesFrom(r: Request, head0: nat, es: seq<Event>) returns (origin: nat)
    requires r.from == 0
    ensures MayServeFrom(r.lastEventId, head0, origin)
    ensures var sent := After(r, head0, es).conn.sent; sent == Range(origin, origin + |sent|)
  {
    InvHolds(r, head0, es);
    origin := Origin(r, After(r, head0, es).conn);
  }
}
