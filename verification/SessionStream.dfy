/** The query caches of the console, as the stream hook changes them in place. */
module SessionStreams {
  import opened Options
  import opened OrderedMaps
  import opened EntriesPages
  import opened EntriesCaches
  import opened EntriesResume

  const STREAM_LAGGED_EVENT := "session.stream_lagged"

  /** A stream frame; `body` is missing when the schema rejects the frame as an entry. */
  datatype Frame = Frame(event: string, id: Option<nat>, body: Option<string>)

  datatype Family = EntriesOf | DetailOf | UsageOf | MessagesOf | SessionLists

  predicate StartsWith(s: string, prefix: string) { prefix <= s }

  predicate CarriesEntry(f: Frame) { f.event != STREAM_LAGGED_EVENT && f.id.Some? && f.body.Some? }

  function Folded(c: Cache, f: Frame): Cache {
    if CarriesEntry(f) then Arrived(c, Entry(f.id.value, f.body.value)) else c
  }

  /** The queries to fetch again after a frame. */
  function Stale(f: Frame): set<Family> {
    if f.event == STREAM_LAGGED_EVENT then {EntriesOf}
    else if f.id == None then {}
    else if f.body == None then {EntriesOf}
    else if StartsWith(f.event, "session.status") then {DetailOf, UsageOf, SessionLists, MessagesOf}
    else {}
  }

  class QueryCaches {
    var pages: map<QueryKey, Page>
    var pending: map<SessionId, Buffer>

    constructor ()
      ensures forall s :: Of(s) == EMPTY
    {
      pages, pending := map[], map[];
    }

    /** What concerns one session. */
    ghost function Of(s: SessionId): Cache
      reads this
    {
      Cache(PagesOf(pages, s), if s in pending then pending[s] else NO_ENTRIES)
    }

    method HasEntriesData(s: SessionId) returns (has: bool)
      ensures has <==> Of(s).pages != map[]
    {
      has := exists k | k in pages :: k.session == s;
      if has {
        ghost var k :| k in pages && k.session == s;
        assert k in PagesOf(pages, s);
      }
    }

    method UpsertEntries(page: Page, entries: seq<Entry>) returns (next: Page)
      ensures next == page.(data := UpsertAll(page.data, entries))
    {
      next := page;
      for i := 0 to |entries|
        invariant next == page.(data := UpsertAll(page.data, entries[..i]))
      {
        assert entries[..i + 1][..i] == entries[..i];
        next := UpsertEntry(next, entries[i]);
      }
      assert entries[..|entries|] == entries;
    }

    /** `setQueriesData` on the entries pages of `s`. */
    method UpsertIntoPages(s: SessionId, entries: seq<Entry>)
      modifies this`pages
      ensures PagesOf(pages, s) == ToAll(PagesOf(old(pages), s), entries)
      ensures forall t | t != s :: PagesOf(pages, t) == PagesOf(old(pages), t)
    {
      ghost var was := pages;
      var left := set k | k in pages && k.session == s;
      while left != {}
        invariant PartlyUpserted(was, pages, left, s, entries)
        decreases |left|
      {
        var k :| k in left;
        var next := UpsertEntries(pages[k], entries);
        pages, left := pages[k := next], left - {k};
      }
      assert forall k | k in pages :: k.session == s ==> pages[k] == was[k].(data := UpsertAll(was[k].data, entries));
    }

    method DropPendingEntries(s: SessionId)
      modifies this`pending
      ensures pending == old(pending) - {s}
      ensures Of(s) == old(Of(s)).(buffer := NO_ENTRIES)
      ensures forall t | t != s :: Of(t) == old(Of(t))
    {
      pending := pending - {s};
    }

    method FlushPendingEntries(s: SessionId)
      modifies this
      ensures Of(s) == Flushed(old(Of(s)))
      ensures forall t | t != s :: Of(t) == old(Of(t))
    {
      if s !in pending || pending[s].Size() == 0 { return; }
      var buffer := pending[s];
      var has := HasEntriesData(s);
      if !has { return; }
      DropPendingEntries(s);
      UpsertIntoPages(s, SortByPos(Values(buffer)));
    }

    method ApplyStreamFrame(s: SessionId, f: Frame) returns (stale: set<Family>)
      modifies this
      ensures Of(s) == Folded(old(Of(s)), f) && stale == Stale(f)
      ensures forall t | t != s :: Of(t) == old(Of(t))
    {
      if f.event == STREAM_LAGGED_EVENT { return {EntriesOf}; }
      if f.id == None { return {}; }
      if f.body == None { return {EntriesOf}; }
      var entry := Entry(f.id.value, f.body.value);
      var has := HasEntriesData(s);
      if has {
        UpsertIntoPages(s, [entry]);
        OneEntry(PagesOf(old(pages), s), entry);
      } else {
        if s !in pending { pending := pending[s := NO_ENTRIES]; }
        pending := pending[s := Put(pending[s], entry)];
      }
      stale := if StartsWith(f.event, "session.status") then {DetailOf, UsageOf, SessionLists, MessagesOf} else {};
    }

    /** An entries query has its first data, and the hook of a mounted view hears of it. */
    method QueryResolved(k: QueryKey, p: Page)
      modifies this
      ensures Of(k.session) == Resolved(old(Of(k.session)), k, p)
      ensures forall t | t != k.session :: Of(t) == old(Of(t))
    {
      pages := pages[k := p];
      assert PagesOf(pages, k.session) == PagesOf(old(pages), k.session)[k := p];
      FlushPendingEntries(k.session);
    }

    /** The highest position in the pages of `s`, from which a view that mounts resumes. */
    method LatestCachedSeq(s: SessionId) returns (max: Option<nat>)
      ensures IsLatest(Of(s).pages, max)
    {
      max := None;
      var ours := PagesOf(pages, s);
      var left := ours.Keys;
      while left != {}
        invariant left <= ours.Keys
        invariant forall k | k in ours && k !in left :: Covers(ours[k].data, max)
        invariant max == None || exists k | k in ours :: Attains(ours[k].data, max)
        decreases |left|
      {
        var k :| k in left;
        max := Highest(ours[k].data, max);
        left := left - {k};
      }
    }

    /** The inner loop of `latestCachedSeq`, going on from `start`. */
    method Highest(data: seq<Entry>, start: Option<nat>) returns (max: Option<nat>)
      ensures Covers(data, max) && (max == start || Attains(data, max))
      ensures start == None || (max.Some? && start.value <= max.value)
    {
      max := start;
      for i := 0 to |data|
        invariant Covers(data[..i], max) && (max == start || Attains(data, max))
        invariant start == None || (max.Some? && start.value <= max.value)
      {
        assert data[..i + 1] == data[..i] + [data[i]];
        if max == None || data[i].pos > max.value { max := Some(data[i].pos); }
      }
      assert data[..|data|] == data;
    }
  }

  /** The pages of `s` but for those in `left` have taken in the entries; nothing else has changed. */
  ghost predicate PartlyUpserted(
      was: map<QueryKey, Page>, pages: map<QueryKey, Page>, left: set<QueryKey>, s: SessionId, entries: seq<Entry>)
  {
    && pages.Keys == was.Keys
    && (forall k | k in left :: k in pages && k.session == s)
    && (forall k | k in pages :: pages[k] ==
          (if k.session != s || k in left then was[k] else was[k].(data := UpsertAll(was[k].data, entries))))
  }

  function PagesOf(pages: map<QueryKey, Page>, s: SessionId): map<QueryKey, Page> {
    map k | k in pages && k.session == s :: pages[k]
  }

  lemma OneEntry(pages: map<QueryKey, Page>, e: Entry)
    ensures ToAll(pages, [e]) == IntoAll(pages, e)
  {
    forall k | k in pages ensures UpsertAll(pages[k].data, [e]) == Upserted(pages[k].data, e) {
      assert UpsertAll(pages[k].data, []) == pages[k].data;
      assert [e][..0] == [];
    }
  }
}
