/** Stream frames as they reach the pages: what one frame does, and what all of them come to. */
module FrameFolding {
  import opened Options
  import opened OrderedMaps
  import opened EntriesPages
  import opened EntriesCaches
  import opened SessionStreams

  // ---- One frame ----

  /** A frame with an id and a body the schema accepts, other than a lag notice, puts its entry at its
      position in every sorted page and changes nothing else there; while no page has data it puts it in
      the buffer. Any other frame leaves pages and buffer alone. */
  lemma FrameReachesPages(c: Cache, f: Frame)
    ensures var n := Folded(c, f);
      if f.event != "session.stream_lagged" && f.id.Some? && f.body.Some? then
        var e := Entry(f.id.value, f.body.value);
        if c.pages == map[] then n.pages == map[] && n.buffer.vals == c.buffer.vals[e.pos := e]
        else
          && n.buffer == c.buffer && n.pages.Keys == c.pages.Keys
          && forall k | k in c.pages && Ascending(c.pages[k].data) :: PutInto(c.pages[k], n.pages[k], e)
      else n == c
  {
    if CarriesEntry(f) && c.pages != map[] {
      var e, n := Entry(f.id.value, f.body.value), Folded(c, f);
      forall k | k in c.pages && Ascending(c.pages[k].data) ensures PutInto(c.pages[k], n.pages[k], e) {
        UpsertPuts(c.pages[k].data, e);
      }
    }
  }

  /** Page `q` is `p` with `e` at its position: sorted, with `e` in it, and at every other position with
      the entry of `p` or none, as before. */
  ghost predicate PutInto(p: Page, q: Page, e: Entry) {
    && q.nextCursor == p.nextCursor && Ascending(q.data) && e in q.data
    && (forall x: Entry | x.pos != e.pos :: x in q.data <==> x in p.data)
    && (forall x | x in q.data && x.pos == e.pos :: x == e)
  }

  lemma UpsertPuts(s: seq<Entry>, e: Entry)
    requires Ascending(s)
    ensures var r := Upserted(s, e);
      && Ascending(r) && e in r
      && (forall x: Entry | x.pos != e.pos :: x in r <==> x in s)
      && (forall x | x in r && x.pos == e.pos :: x == e)
  {
    AscendingLists(s);
    var m, r := LastByPos(s), Upserted(s, e);
    UpsertUpdates(s, e, m);
    var i := ListsAll(r, m[e.pos := e], e.pos);
    forall x: Entry | x.pos != e.pos ensures x in r <==> x in s {
      InListed(s, m, x);
      InListed(r, m[e.pos := e], x);
    }
    forall x | x in r && x.pos == e.pos ensures x == e { InListed(r, m[e.pos := e], x); }
  }

  /** A list has exactly the entries of its map. */
  lemma InListed(s: seq<Entry>, m: map<nat, Entry>, x: Entry)
    requires Lists(s, m)
    ensures x in s <==> x.pos in m && m[x.pos] == x
  {
    if x.pos in m { var i := ListsAll(s, m, x.pos); }
  }

  /** What is fetched again after a frame: the entries exactly after a lag notice or a frame with an id
      whose body is rejected; status, usage, lists and messages exactly after an accepted frame with an
      id whose event begins with `session.status`. */
  lemma StaleExactly(f: Frame)
    ensures EntriesOf in Stale(f) <==>
      f.event == "session.stream_lagged" || (f.id.Some? && f.body == None)
    ensures forall q: Family | q != EntriesOf :: q in Stale(f) <==>
      f.event != "session.stream_lagged" && f.id.Some? && f.body.Some? && "session.status" <= f.event
  {
  }

  // ---- All frames ----

  /** What comes to a mounted view: frames, and first resolutions of queries. */
  datatype Happening = Comes(f: Frame) | Resolution(k: QueryKey, p: Page)

  function Happened(c: Cache, h: Happening): Cache {
    match h
    case Comes(f) => Folded(c, f)
    case Resolution(k, p) => Resolved(c, k, p)
  }

  function FoldedAll(hs: seq<Happening>): Cache {
    if hs == [] then EMPTY else Happened(FoldedAll(hs[..|hs| - 1]), hs[|hs| - 1])
  }

  /** The entry it carries arrives, or the query resolves. */
  function EventOf(h: Happening): seq<Event> {
    match h
    case Comes(f) =>
      if f.event != "session.stream_lagged" && f.id.Some? && f.body.Some? then [Arrives(Entry(f.id.value, f.body.value))]
      else []
    case Resolution(k, p) => [Resolves(k, p)]
  }

  function EventsOf(hs: seq<Happening>): seq<Event> {
    if hs == [] then [] else EventsOf(hs[..|hs| - 1]) + EventOf(hs[|hs| - 1])
  }

  /** Folding frames is letting the entries they carry arrive. */
  lemma {:induction false} FoldingIsArriving(hs: seq<Happening>)
    ensures FoldedAll(hs) == After(EventsOf(hs))
    decreases |hs|
  {
    if hs != [] {
      FoldingIsArriving(hs[..|hs| - 1]);
      OneHappens(EventsOf(hs[..|hs| - 1]), hs[|hs| - 1]);
    }
  }

  lemma OneHappens(es: seq<Event>, h: Happening)
    ensures After(es + EventOf(h)) == Happened(After(es), h)
  {
    if EventOf(h) == [] { assert es + EventOf(h) == es; } else { AfterSnoc(es, EventOf(h)[0]); }
  }

  /** So the page of a query that resolves once lists the entries it fetched, overridden by the last entry
      the frames carried for each position: of all frames if it was the first page to resolve, else of
      those that came after. */
  lemma FramesShowOnPage(hs: seq<Happening>, k: QueryKey, i: nat)
    requires ResolvesOnce(EventsOf(hs), k, i)
    ensures Shows(FoldedAll(hs), k, EventsOf(hs)[i].p, Heard(EventsOf(hs), i))
  {
    FoldingIsArriving(hs);
    Confluence(EventsOf(hs), k, i);
  }

  /** The hook's callbacks, one after the other, do just that to the caches of the session. */
  method Follow(caches: QueryCaches, s: SessionId, hs: seq<Happening>)
    requires caches.Of(s) == EMPTY && forall i | 0 <= i < |hs| && hs[i].Resolution? :: hs[i].k.session == s
    modifies caches
    ensures caches.Of(s) == FoldedAll(hs)
  {
    for i := 0 to |hs|
      invariant caches.Of(s) == FoldedAll(hs[..i])
    {
      assert hs[..i + 1][..i] == hs[..i];
      match hs[i]
      case Comes(f) => var stale := caches.ApplyStreamFrame(s, f);
      case Resolution(k, p) => caches.QueryResolved(k, p);
    }
    assert hs[..|hs|] == hs;
  }
}
