/** Stream frames racing with the queries that fill a session's entries pages: until the first page
    resolves frames wait in a buffer, and then every frame is upserted into every page. */
module EntriesCaches {
  import opened Options
  import opened OrderedMaps
  import opened EntriesPages

  type SessionId = string

  /** The key of an entries query: the session, and the slice asked for. */
  datatype QueryKey = EntriesKey(session: SessionId, slice: string)

  // ---- The pending buffer ----

  ghost predicate BufferOk(b: OrderedMap<nat, Entry>) {
    b.Valid() && forall k | k in b.vals :: b.vals[k].pos == k
  }

  type Buffer = b: OrderedMap<nat, Entry> | BufferOk(b) witness EmptyMap<nat, Entry>()

  const NO_ENTRIES: Buffer := EmptyMap()

  function Put(b: Buffer, e: Entry): Buffer {
    b.SetValid(e.pos, e);
    b.Set(e.pos, e)
  }

  /** In the order of first arrival. */
  function Values(b: Buffer): (s: seq<Entry>)
    ensures |s| == |b.order| && forall i | 0 <= i < |s| :: s[i] == b.vals[b.order[i]]
  {
    seq(|b.order|, i requires 0 <= i < |b.order| => b.vals[b.order[i]])
  }

  lemma {:induction false} LastByPosHas(s: seq<Entry>, i: nat)
    requires i < |s|
    ensures s[i].pos in LastByPos(s)
    decreases |s|
  {
    if i < |s| - 1 { LastByPosHas(s[..|s| - 1], i); }
  }

  /** Sorted, the buffer lists the last entry that arrived for each position. */
  lemma SortedBuffer(b: Buffer)
    ensures LastByPos(SortByPos(Values(b))) == b.vals
  {
    var s := Values(b);
    SortLists(s);
    AscendingLists(SortByPos(s));
    SameMap(SortByPos(s), LastByPos(s), LastByPos(SortByPos(s)));
    BufferedValues(b);
  }

  lemma BufferedValues(b: Buffer)
    ensures Distinct(Values(b)) && LastByPos(Values(b)) == b.vals
  {
    var s := Values(b);
    forall k | k in b.vals ensures k in LastByPos(s) {
      assert k in b.order;
      var i :| 0 <= i < |b.order| && b.order[i] == k;
      LastByPosHas(s, i);
    }
    forall k | k in LastByPos(s) ensures k in b.vals && LastByPos(s)[k] == b.vals[k] { var i := LastByPosFrom(s, k); }
  }

  lemma SameMap(s: seq<Entry>, m: map<nat, Entry>, n: map<nat, Entry>)
    requires Lists(s, m) && Lists(s, n)
    ensures m == n
  {
    forall k | k in m ensures k in n && n[k] == m[k] { var i := ListsAll(s, m, k); }
    forall k | k in n ensures k in m { var i := ListsAll(s, n, k); }
  }

  // ---- The caches of one session ----

  /** `pages` are the entries pages that hold data. */
  datatype Cache = Cache(pages: map<QueryKey, Page>, buffer: Buffer)

  const EMPTY := Cache(map[], NO_ENTRIES)

  function ToAll(pages: map<QueryKey, Page>, es: seq<Entry>): map<QueryKey, Page> {
    map k | k in pages :: pages[k].(data := UpsertAll(pages[k].data, es))
  }

  function IntoAll(pages: map<QueryKey, Page>, e: Entry): map<QueryKey, Page> {
    map k | k in pages :: UpsertEntry(pages[k], e)
  }

  function Arrived(c: Cache, e: Entry): Cache {
    if c.pages != map[] then c.(pages := IntoAll(c.pages, e)) else c.(buffer := Put(c.buffer, e))
  }

  function Flushed(c: Cache): Cache {
    if c.buffer.order == [] || c.pages == map[] then c
    else Cache(ToAll(c.pages, SortByPos(Values(c.buffer))), NO_ENTRIES)
  }

  function Resolved(c: Cache, k: QueryKey, p: Page): Cache { Flushed(c.(pages := c.pages[k := p])) }

  // ---- Runs ----

  datatype Event = Arrives(e: Entry) | Resolves(k: QueryKey, p: Page)

  function Step(c: Cache, ev: Event): Cache {
    match ev
    case Arrives(e) => Arrived(c, e)
    case Resolves(k, p) => Resolved(c, k, p)
  }

  function After(es: seq<Event>): Cache
    decreases |es|
  {
    if es == [] then EMPTY else Step(After(es[..|es| - 1]), es[|es| - 1])
  }

  /** The entries of the frames that arrived. */
  function Frames(es: seq<Event>): seq<Entry>
    decreases |es|
  {
    if es == [] then []
    else Frames(es[..|es| - 1]) + match es[|es| - 1] case Arrives(e) => [e] case _ => []
  }

  ghost predicate NoneResolved(es: seq<Event>) {
    forall j | 0 <= j < |es| :: es[j].Arrives?
  }

  /** Before any page has data (`none`), the buffer holds the last of the frames at each position;
      after that it is empty. */
  ghost predicate Buffered(c: Cache, none: bool, frames: seq<Entry>) {
    && (c.pages == map[] <==> none)
    && (if none then c.buffer.vals == LastByPos(frames) else c.buffer.order == [])
  }

  lemma ArriveBuffers(c: Cache, none: bool, frames: seq<Entry>, e: Entry)
    requires Buffered(c, none, frames)
    ensures Buffered(Arrived(c, e), none, frames + [e])
  {
    if none {
      LastByPosSnoc(frames, e);
    } else {
      var k :| k in c.pages;
      assert k in IntoAll(c.pages, e);
    }
  }

  lemma ResolveBuffers(c: Cache, none: bool, frames: seq<Entry>, k: QueryKey, p: Page)
    requires Buffered(c, none, frames)
    ensures Buffered(Resolved(c, k, p), false, frames)
  {
    var pages := c.pages[k := p];
    assert k in pages && k in ToAll(pages, SortByPos(Values(c.buffer)));
  }

  /** While frames wait, no page has data; and before any page has, the buffer holds the last frame
      of each position. */
  lemma {:induction false} BufferExcludesPages(es: seq<Event>)
    ensures Buffered(After(es), NoneResolved(es), Frames(es))
    decreases |es|
  {
    if es != [] {
      var init, ev := es[..|es| - 1], es[|es| - 1];
      BufferExcludesPages(init);
      assert es == init + [ev];
      assert NoneResolved(es) <==> NoneResolved(init) && ev.Arrives?;
      match ev
      case Arrives(e) => ArriveBuffers(After(init), NoneResolved(init), Frames(init), e);
      case Resolves(k, p) => ResolveBuffers(After(init), NoneResolved(init), Frames(init), k, p);
    }
  }

  /** Query `k` resolves once, at step `i`, with a sorted page. */
  ghost predicate ResolvesOnce(es: seq<Event>, k: QueryKey, i: nat) {
    && i < |es| && es[i].Resolves? && es[i].k == k && Ascending(es[i].p.data)
    && forall j | 0 <= j < |es| && j != i :: es[j].Resolves? ==> es[j].k != k
  }

  /** The frames a page has to take in: all of them if it was the first to resolve, otherwise those
      after it resolved. */
  ghost function Heard(es: seq<Event>, i: nat): seq<Entry>
    requires i < |es|
  {
    if NoneResolved(es[..i]) then Frames(es) else Frames(es[i..])
  }

  /** Page `k` lists the entries of page `p` overridden by the last of `heard` at each position. */
  ghost predicate Shows(c: Cache, k: QueryKey, p: Page, heard: seq<Entry>) {
    && k in c.pages
    && c.pages[k].nextCursor == p.nextCursor
    && Lists(c.pages[k].data, LastByPos(p.data) + LastByPos(heard))
  }

  /** However frames and resolutions interleave, the page lists the fetched entries overridden by
      the last frame at each position, in order and without repeats. */
  lemma {:induction false} Confluence(es: seq<Event>, k: QueryKey, i: nat)
    requires ResolvesOnce(es, k, i)
    ensures Shows(After(es), k, es[i].p, Heard(es, i))
    decreases |es|
  {
    var init, ev := es[..|es| - 1], es[|es| - 1];
    var c := After(init);
    BufferExcludesPages(init);
    if i == |es| - 1 {
      HeardFirst(es, i);
      assert LastByPos(Heard(es, i)) == c.buffer.vals by {
        if !NoneResolved(init) { assert c.buffer.vals == map[]; }
      }
      ResolveShows(c, k, es[i].p, Heard(es, i));
    } else {
      Confluence(init, k, i);
      HeardStep(es, i);
      StepShows(c, k, es[i].p, Heard(init, i), ev);
    }
    assert After(es) == Step(c, ev);
  }

  lemma HeardFirst(es: seq<Event>, i: nat)
    requires i == |es| - 1 && es[i].Resolves?
    ensures es[..i] == es[..|es| - 1]
    ensures Heard(es, i) == if NoneResolved(es[..i]) then Frames(es[..i]) else []
  {
    var last := es[i..];
    assert last[..0] == [] && last[0] == es[i];
    assert Frames([]) == [];
    assert Frames(last) == Frames(last[..0]) + [];
    assert Frames(es) == Frames(es[..i]) + [];
  }

  lemma StepShows(c: Cache, k: QueryKey, p: Page, heard: seq<Entry>, ev: Event)
    requires Shows(c, k, p, heard) && c.buffer.order == [] && (ev.Resolves? ==> ev.k != k)
    ensures Shows(Step(c, ev), k, p, heard + match ev case Arrives(e) => [e] case _ => [])
  {
    match ev
    case Arrives(e) => ArriveShows(c, k, p, heard, e);
    case Resolves(k', p') =>
      assert Resolved(c, k', p').pages[k] == c.pages[k];
      assert heard + [] == heard;
  }

  /** The first page to resolve takes in the whole buffer. */
  lemma FirstResolved(c: Cache, k: QueryKey, p: Page)
    requires c.pages == map[]
    ensures var c' := Resolved(c, k, p);
      && c'.pages == map[k := p.(data := UpsertAll(p.data, SortByPos(Values(c.buffer))))]
      && c'.buffer.order == []
  {
    var sorted := SortByPos(Values(c.buffer));
    assert k in c.pages[k := p] && c.pages[k := p] == map[k := p];
    assert ToAll(map[k := p], sorted) == map[k := p.(data := UpsertAll(p.data, sorted))];
    if c.buffer.order == [] { assert UpsertAll(p.data, sorted) == p.data; }
  }

  lemma ResolveShows(c: Cache, k: QueryKey, p: Page, heard: seq<Entry>)
    requires Ascending(p.data) && (c.pages == map[] || c.buffer.order == []) && LastByPos(heard) == c.buffer.vals
    ensures Shows(Resolved(c, k, p), k, p, heard)
  {
    AscendingLists(p.data);
    if c.pages == map[] { FirstResolveShows(c, k, p, heard); } else { LaterResolveShows(c, k, p, heard); }
  }

  lemma FirstResolveShows(c: Cache, k: QueryKey, p: Page, heard: seq<Entry>)
    requires Lists(p.data, LastByPos(p.data)) && c.pages == map[] && LastByPos(heard) == c.buffer.vals
    ensures Shows(Resolved(c, k, p), k, p, heard)
  {
    SortedBuffer(c.buffer);
    UpsertAllUpdates(p.data, SortByPos(Values(c.buffer)), LastByPos(p.data));
    FirstResolved(c, k, p);
  }

  lemma LaterResolveShows(c: Cache, k: QueryKey, p: Page, heard: seq<Entry>)
    requires Lists(p.data, LastByPos(p.data)) && c.buffer.order == [] && LastByPos(heard) == c.buffer.vals
    ensures Shows(Resolved(c, k, p), k, p, heard)
  {
    assert c.buffer.vals == map[];
    assert LastByPos(p.data) + map[] == LastByPos(p.data);
    assert Resolved(c, k, p).pages[k] == p;
  }

  lemma LastByPosSnoc(s: seq<Entry>, e: Entry)
    ensures LastByPos(s + [e]) == LastByPos(s)[e.pos := e]
  {
    assert (s + [e])[..|s|] == s;
  }

  lemma ArriveShows(c: Cache, k: QueryKey, p: Page, heard: seq<Entry>, e: Entry)
    requires Shows(c, k, p, heard)
    ensures Shows(Arrived(c, e), k, p, heard + [e])
  {
    var m := LastByPos(p.data) + LastByPos(heard);
    UpsertUpdates(c.pages[k].data, e, m);
    LastByPosSnoc(heard, e);
    assert m[e.pos := e] == LastByPos(p.data) + LastByPos(heard + [e]);
    ArrivedPage(c, k, e);
  }

  lemma ArrivedPage(c: Cache, k: QueryKey, e: Entry)
    requires k in c.pages
    ensures k in Arrived(c, e).pages && Arrived(c, e).pages[k] == UpsertEntry(c.pages[k], e)
  {
  }

  lemma HeardStep(es: seq<Event>, i: nat)
    requires i < |es| - 1
    ensures Heard(es, i) == Heard(es[..|es| - 1], i) + match es[|es| - 1] case Arrives(e) => [e] case _ => []
  {
    var init := es[..|es| - 1];
    assert es[..i] == init[..i];
    assert es[i..][..|es| - i - 1] == init[i..];
  }

  /** With one query, only the last frame at each position matters: not when the query resolved,
      and not the order or the number of the frames. Buffering and flushing is upserting. */
  lemma OrderIsIrrelevant(es: seq<Event>, i: nat, fs: seq<Event>, j: nat, k: QueryKey)
    requires ResolvesOnce(es, k, i) && ResolvesOnce(fs, k, j) && es[i].p == fs[j].p
    requires NoneResolved(es[..i]) && NoneResolved(fs[..j])
    requires LastByPos(Frames(es)) == LastByPos(Frames(fs))
    ensures k in After(es).pages && k in After(fs).pages && After(es).pages[k] == After(fs).pages[k]
  {
    Confluence(es, k, i);
    Confluence(fs, k, j);
    ListsUnique(After(es).pages[k].data, After(fs).pages[k].data, LastByPos(es[i].p.data) + LastByPos(Frames(es)));
  }

  ghost predicate HasPage(c: Cache, k: QueryKey, p: Page) { k in c.pages && c.pages[k] == p }

  function Arrivals(entries: seq<Entry>): seq<Event> {
    seq(|entries|, i requires 0 <= i < |entries| => Arrives(entries[i]))
  }

  /** Delivering again what a page already shows changes nothing. */
  lemma ReplayChangesNothing(es: seq<Event>, k: QueryKey, i: nat, p: Page, replayed: seq<Entry>)
    requires ResolvesOnce(es, k, i) && HasPage(After(es), k, p) && AllIn(replayed, p)
    ensures HasPage(After(es + Arrivals(replayed)), k, p)
  {
    Confluence(es, k, i);
    ShownAgainAll(es, k, p, replayed);
  }

  lemma AfterSnoc(es: seq<Event>, ev: Event)
    ensures After(es + [ev]) == Step(After(es), ev)
  {
    assert (es + [ev])[..|es|] == es;
  }

  lemma ShownAgain(c: Cache, k: QueryKey, p: Page, e: Entry)
    requires HasPage(c, k, p) && Ascending(p.data) && e in p.data
    ensures HasPage(Step(c, Arrives(e)), k, p)
  {
    UpsertShown(p.data, e);
  }

  lemma ArrivalsSplit(es: seq<Event>, entries: seq<Entry>)
    ensures entries == [] ==> es + Arrivals(entries) == es
    ensures entries != [] ==> var n := |entries| - 1;
      es + Arrivals(entries) == es + Arrivals(entries[..n]) + [Arrives(entries[n])]
  {
  }

  ghost predicate AllIn(entries: seq<Entry>, p: Page) {
    forall j | 0 <= j < |entries| :: entries[j] in p.data
  }

  lemma AllInButLast(entries: seq<Entry>, p: Page)
    requires AllIn(entries, p) && entries != []
    ensures AllIn(entries[..|entries| - 1], p) && entries[|entries| - 1] in p.data
  {
  }

  ghost predicate HasSorted(c: Cache, k: QueryKey, p: Page) { HasPage(c, k, p) && Ascending(p.data) }

  lemma ArriveShown(es: seq<Event>, k: QueryKey, p: Page, e: Entry)
    requires HasSorted(After(es), k, p) && e in p.data
    ensures HasSorted(After(es + [Arrives(e)]), k, p)
  {
    AfterSnoc(es, Arrives(e));
    ShownAgain(After(es), k, p, e);
  }

  lemma {:induction false} ShownAgainAll(es: seq<Event>, k: QueryKey, p: Page, replayed: seq<Entry>)
    requires HasSorted(After(es), k, p) && AllIn(replayed, p)
    ensures HasSorted(After(es + Arrivals(replayed)), k, p)
    decreases |replayed|
  {
    ArrivalsSplit(es, replayed);
    if replayed != [] {
      var n := |replayed| - 1;
      AllInButLast(replayed, p);
      ShownAgainAll(es, k, p, replayed[..n]);
      ArriveShown(es + Arrivals(replayed[..n]), k, p, replayed[n]);
    }
  }
}
