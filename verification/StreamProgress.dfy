/** That a stream gets somewhere: the server from page to page and to the live tail, the client to the
    head of the log. */
module StreamProgress {
  import opened Options
  import opened EventHistory
  import opened StreamServer

  // ---- The server's replay ----

  /** How many entries a page has. */
  function PageCount(limit: nat, head: nat, start: nat): nat {
    if head <= start then 0 else if head - start < limit then head - start else limit
  }

  /** A page sends the next entries of the log, as many as fit, and after a full one comes the next. A
      short one has reached the head: a live connection then goes on to its tail from right after what
      was sent, or where nothing was sent from right after the header; and reads the head first when
      there is neither. Without a runtime the connection ends. */
  lemma PageGoesOn(r: Request, head0: nat, es: seq<Event>)
    requires After(r, head0, es).conn.pc.Paging?
    ensures GoesOn(r, After(r, head0, es), Step(r, After(r, head0, es), ReadPage).conn)
  {
    InvHolds(r, head0, es);
    PageIsNext(r, head0, After(r, head0, es));
  }

  ghost predicate GoesOn(r: Request, w: World, n: Connection)
    requires w.conn.pc.Paging?
  {
    var c, start := w.conn, w.conn.pc.start;
    var k := PageCount(r.pageSize, w.head, start);
    && start == First(r) + |c.sent| && n.sent == c.sent + Range(start, start + k) && n.queue == c.queue
    && n.pc == (if k == r.pageSize then Paging(start + k)
                else if n.sent == [] && r.lastEventId == None then AtHead
                else if r.live then Tail(start + k)
                else Closed)
    && (k < r.pageSize ==> w.head <= start + k)
  }

  lemma PageIsNext(r: Request, head0: nat, w: World)
    requires Inv(r, head0, w) && w.conn.pc.Paging?
    ensures GoesOn(r, w, Step(r, w, ReadPage).conn)
  {
    PageStepIs(r, w);
    var start := w.conn.pc.start;
    RangeLast(start, PageCount(r.pageSize, w.head, start));
  }

  lemma PageStepIs(r: Request, w: World)
    requires w.conn.pc.Paging?
    ensures var c, start := w.conn, w.conn.pc.start;
      var k := PageCount(r.pageSize, w.head, start);
      var last := if k == 0 then c.last else Some(start + k - 1);
      Step(r, w, ReadPage).conn == c.(
        pc := if k < r.pageSize then Replayed(r, last) else Paging(start + k), last := last,
        sent := c.sent + Range(start, start + k))
  {
    var start := w.conn.pc.start;
    ReadCount(w.head, start, r.pageSize);
    RangeLast(start, PageCount(r.pageSize, w.head, start));
  }

  lemma RangeLast(start: nat, k: nat)
    ensures k > 0 ==> Range(start, start + k) != [] && Range(start, start + k)[k - 1] == start + k - 1
    ensures k == 0 ==> Range(start, start + k) == []
    ensures |Range(start, start + k)| == k
  {
  }

  lemma ReadCount(head: nat, start: nat, limit: nat)
    ensures ReadEvents(head, Some(start), limit) == Range(start, start + PageCount(limit, head, start))
  {
  }

  function Pages(n: nat): seq<Event> { seq(n, i => ReadPage) }

  /** The replay comes to an end: after as many pages as the rest of the log takes, and one more. */
  lemma ReplayEnds(r: Request, head0: nat, es: seq<Event>, n: nat)
    requires n > 0 && var w := After(r, head0, es); w.conn.pc.Paging? && w.head < w.conn.pc.start + n * r.pageSize
    ensures !After(r, head0, es + Pages(n)).conn.pc.Paging?
  {
    PagesTaken(r, head0, es, n);
  }

  lemma {:induction false} PagesTaken(r: Request, head0: nat, es: seq<Event>, n: nat)
    requires After(r, head0, es).conn.pc.Paging?
    ensures var w, v := After(r, head0, es), After(r, head0, es + Pages(n));
      && v.head == w.head
      && (v.conn.pc.Paging? ==> v.conn.pc.start == w.conn.pc.start + n * r.pageSize)
      && (v.conn.pc.Paging? && n > 0 ==> v.conn.pc.start <= w.head)
    decreases n
  {
    if n == 0 {
      assert es + Pages(0) == es;
    } else {
      PagesTaken(r, head0, es, n - 1);
      var before := es + Pages(n - 1);
      Snoc(r, head0, before, ReadPage);
      assert es + Pages(n) == before + [ReadPage];
      var w, b := After(r, head0, es), After(r, head0, before);
      if b.conn.pc.Paging? {
        PageGoesOn(r, head0, before);
        OneMorePage(w.conn.pc.start, n, r.pageSize);
      }
    }
  }

  lemma OneMorePage(start: nat, n: nat, limit: nat)
    requires n > 0
    ensures start + (n - 1) * limit + limit == start + n * limit
  {
  }

  lemma Snoc(r: Request, head0: nat, es: seq<Event>, e: Event)
    ensures After(r, head0, es + [e]) == Then(r, After(r, head0, es), e)
  {
    assert (es + [e])[..|es|] == es;
  }

  // ---- The server's tail ----

  function Delivers(n: nat): seq<Event> { seq(n, i => Deliver) }

  /** The live tail hands out what it holds back, and has then sent up to the head. */
  lemma TailDrains(r: Request, head0: nat, es: seq<Event>)
    requires After(r, head0, es).conn.pc.Tail?
    ensures var w := After(r, head0, es);
      var v := After(r, head0, es + Delivers(|w.conn.queue|));
      v.conn.pc.Tail? && v.conn.queue == [] && v.head == w.head && w.head <= v.conn.pc.next
  {
    var n := |After(r, head0, es).conn.queue|;
    TailDelivers(r, head0, es, n);
    InvHolds(r, head0, es + Delivers(n));
  }

  lemma {:induction false} TailDelivers(r: Request, head0: nat, es: seq<Event>, n: nat)
    requires After(r, head0, es).conn.pc.Tail? && n <= |After(r, head0, es).conn.queue|
    ensures var w, v := After(r, head0, es), After(r, head0, es + Delivers(n));
      v.conn.pc.Tail? && v.head == w.head && |v.conn.queue| == |w.conn.queue| - n
    decreases n
  {
    if n == 0 {
      assert es + Delivers(0) == es;
    } else {
      TailDelivers(r, head0, es, n - 1);
      Snoc(r, head0, es + Delivers(n - 1), Deliver);
      assert es + Delivers(n) == es + Delivers(n - 1) + [Deliver];
    }
  }
}
