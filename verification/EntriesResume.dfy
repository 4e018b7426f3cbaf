/** A page view that comes and goes: each time it mounts, the stream resumes after the highest
    position in the caches, and each time it unmounts, the buffer is dropped. */
module EntriesResume {
  import opened Options
  import opened OrderedMaps
  import opened EntriesPages
  import opened EntriesCaches
  import EventHistory

  /** The log of a session: positions from 0 on, without gaps. */
  ghost predicate Contiguous(log: seq<Entry>) {
    forall i | 0 <= i < |log| :: log[i].pos == i
  }

  ghost predicate Covers(s: seq<Entry>, r: Option<nat>) {
    forall i | 0 <= i < |s| :: r.Some? && s[i].pos <= r.value
  }

  ghost predicate Attains(s: seq<Entry>, r: Option<nat>) {
    exists i | 0 <= i < |s| :: r == Some(s[i].pos)
  }

  /** `r` is the highest position in the pages, if there is one. */
  ghost predicate IsLatest(pages: map<QueryKey, Page>, r: Option<nat>) {
    && (forall k | k in pages :: Covers(pages[k].data, r))
    && (r == None || exists k | k in pages :: Attains(pages[k].data, r))
  }

  /** A session's log, and the positions whose frames the schema rejects as entries. */
  datatype Log = Log(entries: seq<Entry>, rejected: set<nat>)

  /** `head` entries of the log are there so far; `next` is the first position the stream has yet to
      deliver, and `lastId` the header it would reconnect with. */
  datatype View = View(cache: Cache, mounted: bool, next: nat, lastId: Option<nat>, head: nat)

  /** A fetch resolves with the log up to any length there has been. */
  datatype ViewEvent =
    | Append
    | Mount(resume: Option<nat>, origin: nat)
    | Reconnect(origin: nat)
    | Unmount
    | Deliver
    | Fetch(k: QueryKey, n: nat, nextCursor: Option<string>)

  ghost predicate CanHappen(log: Log, v: View, ev: ViewEvent) {
    match ev
    case Append => v.head < |log.entries|
    case Mount(resume, origin) =>
      !v.mounted && IsLatest(v.cache.pages, resume) && EventHistory.MayServeFrom(resume, v.head, origin) && origin <= |log.entries|
    case Reconnect(origin) => v.mounted && EventHistory.MayServeFrom(v.lastId, v.head, origin) && origin <= |log.entries|
    case Unmount => v.mounted
    case Deliver => v.mounted && v.next < v.head <= |log.entries|
    case Fetch(k, n, _) => k !in v.cache.pages && n <= v.head <= |log.entries|
  }

  function StepView(log: Log, v: View, ev: ViewEvent): View
    requires ev.Deliver? ==> v.next < |log.entries|
    requires ev.Fetch? ==> ev.n <= |log.entries|
  {
    match ev
    case Append => v.(head := v.head + 1)
    case Mount(resume, origin) => v.(mounted := true, next := origin, lastId := resume)
    case Reconnect(origin) => v.(next := origin)
    case Unmount => v.(cache := v.cache.(buffer := NO_ENTRIES), mounted := false)
    case Deliver =>
      v.(cache := if v.next in log.rejected then v.cache else Arrived(v.cache, log.entries[v.next]),
         next := v.next + 1, lastId := Some(v.next))
    case Fetch(k, n, nextCursor) =>
      var p := Page(log.entries[..n], nextCursor);
      v.(cache := if v.mounted then Resolved(v.cache, k, p) else v.cache.(pages := v.cache.pages[k := p]))
  }

  /** An event that cannot happen leaves the view alone. */
  ghost function Then(log: Log, v: View, ev: ViewEvent): View {
    if CanHappen(log, v, ev) then StepView(log, v, ev) else v
  }

  /** A session's log has `head0` entries when it is first viewed. */
  ghost function ViewAfter(log: Log, head0: nat, es: seq<ViewEvent>): View
    decreases |es|
  {
    if es == [] then View(EMPTY, false, 0, None, head0)
    else Then(log, ViewAfter(log, head0, es[..|es| - 1]), es[|es| - 1])
  }

  lemma ViewSnoc(log: Log, head0: nat, es: seq<ViewEvent>, ev: ViewEvent)
    ensures ViewAfter(log, head0, es + [ev]) == Then(log, ViewAfter(log, head0, es), ev)
  {
    assert (es + [ev])[..|es|] == es;
  }

  // ---- What holds after every step ----

  /** Entries of the log up to `h`, in order. */
  ghost predicate Logged(s: seq<Entry>, log: seq<Entry>, h: nat) {
    Ascending(s) && forall i | i in LastByPos(s) :: i < h <= |log| && LastByPos(s)[i] == log[i]
  }

  /** Nothing of the log up to `h` is missing but rejected entries. */
  ghost predicate Complete(s: seq<Entry>, rejected: set<nat>, h: nat) {
    forall i | 0 <= i < h && i !in rejected :: i in LastByPos(s)
  }

  /** Page `k` holds the log up to `h`, but for rejected entries, and no page holds anything after. */
  ghost predicate Leads(pages: map<QueryKey, Page>, k: QueryKey, h: nat, log: Log) {
    && h <= |log.entries|
    && k in pages && Complete(pages[k].data, log.rejected, h)
    && (forall k' | k' in pages :: Logged(pages[k'].data, log.entries, h))
  }

  /** The buffer holds what was delivered so far, but for rejected frames. */
  ghost predicate Waiting(b: Buffer, next: nat, log: Log) {
    && next <= |log.entries|
    && (forall i | i in b.vals :: i < next && b.vals[i] == log.entries[i])
    && (forall i | 0 <= i < next && i !in log.rejected :: i in b.vals)
  }

  /** The session is first viewed with entries in its log, or never has any. */
  predicate Anchored(log: Log, head0: nat) { head0 <= |log.entries| && (0 < head0 || log.entries == []) }

  ghost predicate CacheOk(log: Log, c: Cache, mounted: bool, next: nat) {
    if c.pages == map[] then
      if mounted then Waiting(c.buffer, next, log) else c.buffer.order == []
    else
      && c.buffer.order == []
      && exists k, h :: Leads(c.pages, k, h, log) && (mounted ==> next <= h)
  }

  ghost predicate Inv(log: Log, head0: nat, v: View) {
    && head0 <= v.head <= |log.entries|
    && (v.mounted ==> v.next == EventHistory.ReplayStart(v.lastId))
    && CacheOk(log, v.cache, v.mounted, v.next)
  }

  lemma {:induction false} InvHolds(log: Log, head0: nat, es: seq<ViewEvent>)
    requires Contiguous(log.entries) && Anchored(log, head0)
    ensures Inv(log, head0, ViewAfter(log, head0, es))
    decreases |es|
  {
    if es != [] {
      var v, ev := ViewAfter(log, head0, es[..|es| - 1]), es[|es| - 1];
      InvHolds(log, head0, es[..|es| - 1]);
      if CanHappen(log, v, ev) { StepKeeps(log, head0, v, ev); }
    }
  }

  lemma StepKeeps(log: Log, head0: nat, v: View, ev: ViewEvent)
    requires Contiguous(log.entries) && Anchored(log, head0) && Inv(log, head0, v) && CanHappen(log, v, ev)
    ensures Inv(log, head0, StepView(log, v, ev))
  {
    match ev
    case Append =>
    case Mount(resume, origin) => MountKeeps(log, v.cache, resume);
    case Reconnect(origin) =>
    case Unmount =>
    case Deliver => if v.next in log.rejected { RejectKeeps(log, v.cache, v.next); } else { DeliverKeeps(log, v.cache, v.next); }
    case Fetch(k, n, nextCursor) =>
      FetchKeeps(log, v.cache, v.mounted, v.next, k, Page(log.entries[..n], nextCursor), n);
  }

  lemma MountKeeps(log: Log, c: Cache, resume: Option<nat>)
    requires Contiguous(log.entries) && CacheOk(log, c, false, 0) && IsLatest(c.pages, resume)
    ensures CacheOk(log, c, true, EventHistory.ReplayStart(resume))
  {
    if c.pages != map[] {
      var k, h: nat :| Leads(c.pages, k, h, log);
      LatestIs(log, c.pages, k, h, resume);
    }
  }

  /** The stream resumes where the leading page ends, but for rejected entries. */
  lemma LatestIs(log: Log, pages: map<QueryKey, Page>, k: QueryKey, h: nat, resume: Option<nat>)
    requires Contiguous(log.entries) && Leads(pages, k, h, log) && IsLatest(pages, resume)
    ensures EventHistory.ReplayStart(resume) <= h
    ensures forall i | EventHistory.ReplayStart(resume) <= i < h :: i in log.rejected
  {
    if resume.Some? {
      var k' :| k' in pages && Attains(pages[k'].data, resume);
      var i :| 0 <= i < |pages[k'].data| && resume == Some(pages[k'].data[i].pos);
      LastByPosHas(pages[k'].data, i);
    }
    forall i | EventHistory.ReplayStart(resume) <= i < h ensures i in log.rejected {
      if i !in log.rejected { CoveredBelow(pages[k].data, resume, i); }
    }
  }

  lemma CoveredBelow(s: seq<Entry>, resume: Option<nat>, i: nat)
    requires Covers(s, resume) && i in LastByPos(s)
    ensures i < EventHistory.ReplayStart(resume)
  {
    var j := LastByPosFrom(s, i);
  }

  lemma RejectKeeps(log: Log, c: Cache, i: nat)
    requires CacheOk(log, c, true, i) && i < |log.entries| && i in log.rejected
    ensures CacheOk(log, c, true, i + 1)
  {
    if c.pages != map[] {
      var k, h: nat :| Leads(c.pages, k, h, log) && i <= h;
      assert Leads(c.pages, k, if i == h then h + 1 else h, log);
    }
  }

  lemma DeliverKeeps(log: Log, c: Cache, i: nat)
    requires Contiguous(log.entries) && CacheOk(log, c, true, i) && i < |log.entries|
    ensures CacheOk(log, Arrived(c, log.entries[i]), true, i + 1)
  {
    var e := log.entries[i];
    if c.pages == map[] {
      PutWaits(log, c.buffer, i);
    } else {
      var k, h: nat :| Leads(c.pages, k, h, log) && i <= h;
      DeliverLeads(log, c.pages, k, h, i);
      assert k in IntoAll(c.pages, e);
      assert Arrived(c, e) == c.(pages := IntoAll(c.pages, e));
    }
  }

  lemma PutWaits(log: Log, b: Buffer, i: nat)
    requires Contiguous(log.entries) && Waiting(b, i, log) && i < |log.entries|
    ensures Waiting(Put(b, log.entries[i]), i + 1, log)
  {
  }

  lemma DeliverLeads(log: Log, pages: map<QueryKey, Page>, k: QueryKey, h: nat, i: nat)
    requires Contiguous(log.entries) && Leads(pages, k, h, log) && i <= h && i < |log.entries|
    ensures Leads(IntoAll(pages, log.entries[i]), k, if i == h then h + 1 else h, log)
  {
    var more := IntoAll(pages, log.entries[i]);
    UpsertLogged(log.entries, pages[k].data, h, i);
    UpsertCompletes(pages[k].data, log.rejected, h, log.entries[i]);
    assert more[k].data == Upserted(pages[k].data, log.entries[i]);
    forall k' | k' in pages ensures Logged(more[k'].data, log.entries, if i == h then h + 1 else h) {
      UpsertLogged(log.entries, pages[k'].data, h, i);
    }
  }

  lemma UpsertCompletes(s: seq<Entry>, rejected: set<nat>, h: nat, e: Entry)
    requires Complete(s, rejected, h) && e.pos <= h
    requires LastByPos(Upserted(s, e)) == LastByPos(s)[e.pos := e]
    ensures Complete(Upserted(s, e), rejected, if e.pos == h then h + 1 else h)
  {
  }

  lemma UpsertLogged(log: seq<Entry>, s: seq<Entry>, h: nat, i: nat)
    requires Contiguous(log) && Logged(s, log, h) && i <= h <= |log| && i < |log|
    ensures LastByPos(Upserted(s, log[i])) == LastByPos(s)[i := log[i]]
    ensures Logged(Upserted(s, log[i]), log, if i == h then h + 1 else h)
  {
    AscendingLists(s);
    UpsertUpdates(s, log[i], LastByPos(s));
    AscendingLists(Upserted(s, log[i]));
    SameMap(Upserted(s, log[i]), LastByPos(s)[i := log[i]], LastByPos(Upserted(s, log[i])));
  }

  lemma FetchKeeps(log: Log, c: Cache, mounted: bool, next: nat, k: QueryKey, p: Page, n: nat)
    requires Contiguous(log.entries) && CacheOk(log, c, mounted, next) && k !in c.pages
    requires n <= |log.entries| && p.data == log.entries[..n]
    ensures CacheOk(log, if mounted then Resolved(c, k, p) else c.(pages := c.pages[k := p]), mounted, next)
  {
    var pages := c.pages[k := p];
    assert k in pages;
    PrefixMap(log.entries, n);
    if c.pages == map[] && mounted {
      FirstFetch(log, c, next, k, p, n);
    } else if c.pages == map[] {
      assert Leads(pages, k, n, log);
    } else {
      var k', h: nat :| Leads(c.pages, k', h, log) && (mounted ==> next <= h);
      assert Leads(pages, if n > h then k else k', if n > h then n else h, log);
    }
  }

  lemma FirstFetch(log: Log, c: Cache, next: nat, k: QueryKey, p: Page, n: nat)
    requires Contiguous(log.entries) && n <= |log.entries| && p.data == log.entries[..n]
    requires c.pages == map[] && Waiting(c.buffer, next, log)
    ensures var c' := Resolved(c, k, p);
      c'.pages != map[] && c'.buffer.order == [] && Leads(c'.pages, k, if next > n then next else n, log)
  {
    FirstResolved(c, k, p);
    FlushLeads(log, c.buffer, next, n);
    assert k in Resolved(c, k, p).pages;
  }

  lemma FlushLeads(log: Log, b: Buffer, next: nat, n: nat)
    requires Contiguous(log.entries) && n <= |log.entries| && Waiting(b, next, log)
    ensures var r, h := UpsertAll(log.entries[..n], SortByPos(Values(b))), if next > n then next else n;
      Logged(r, log.entries, h) && Complete(r, log.rejected, h)
  {
    FlushMap(log.entries, n, b);
    PrefixMap(log.entries, n);
  }

  /** Flushing the buffer into a fetched page is taking the two together. */
  lemma FlushMap(log: seq<Entry>, n: nat, b: Buffer)
    requires Contiguous(log) && n <= |log|
    ensures var r := UpsertAll(log[..n], SortByPos(Values(b)));
      Ascending(r) && LastByPos(r) == LastByPos(log[..n]) + b.vals
  {
    var sorted := SortByPos(Values(b));
    SortedBuffer(b);
    AscendingLists(log[..n]);
    UpsertAllUpdates(log[..n], sorted, LastByPos(log[..n]));
    var r := UpsertAll(log[..n], sorted);
    AscendingLists(r);
    SameMap(r, LastByPos(log[..n]) + b.vals, LastByPos(r));
  }

  lemma {:induction false} PrefixMap(log: seq<Entry>, n: nat)
    requires Contiguous(log) && n <= |log|
    ensures forall i :: i in LastByPos(log[..n]) <==> 0 <= i < n
    ensures forall i | 0 <= i < n :: LastByPos(log[..n])[i] == log[i]
    decreases n
  {
    if n > 0 {
      PrefixMap(log, n - 1);
      assert log[..n][..n - 1] == log[..n - 1];
    }
  }

  // ---- Nothing is lost ----

  /** Page `k` lists entries of the log in order, and of those the stream has delivered or skipped it
      lacks none but rejected ones. */
  ghost predicate HoldsAccepted(v: View, log: Log, k: QueryKey) {
    && k in v.cache.pages && v.next <= |log.entries|
    && Logged(v.cache.pages[k].data, log.entries, |log.entries|)
    && forall i | 0 <= i < v.next && i !in log.rejected :: log.entries[i] in v.cache.pages[k].data
  }

  /** Page `k` is the log from the start on, as far as the stream is or farther. */
  ghost predicate Holds(v: View, log: Log, k: QueryKey) {
    && k in v.cache.pages
    && v.next <= |v.cache.pages[k].data| <= |log.entries|
    && v.cache.pages[k].data == log.entries[..|v.cache.pages[k].data|]
  }

  ghost predicate NoneLost(v: View, log: Log) {
    v.mounted && v.cache.pages != map[] ==> exists k :: Holds(v, log, k)
  }

  /** However often the view unmounts, with frames in the buffer or without, and the stream
      reconnects: while it is mounted and a query has resolved, some page has everything the stream
      has delivered or skipped, but for rejected frames. */
  lemma NothingLost(log: Log, head0: nat, es: seq<ViewEvent>) returns (k: QueryKey)
    requires Contiguous(log.entries) && Anchored(log, head0)
    requires ViewAfter(log, head0, es).mounted && ViewAfter(log, head0, es).cache.pages != map[]
    ensures HoldsAccepted(ViewAfter(log, head0, es), log, k)
    ensures (forall i | 0 <= i < |log.entries| :: i !in log.rejected) ==> Holds(ViewAfter(log, head0, es), log, k)
  {
    InvHolds(log, head0, es);
    var v := ViewAfter(log, head0, es);
    var k', h: nat :| Leads(v.cache.pages, k', h, log) && v.next <= h;
    k := k';
    LeaderHolds(log, v, k, h);
  }

  lemma LeaderHolds(log: Log, v: View, k: QueryKey, h: nat)
    requires Contiguous(log.entries) && Leads(v.cache.pages, k, h, log) && v.next <= h
    ensures HoldsAccepted(v, log, k)
    ensures (forall i | 0 <= i < |log.entries| :: i !in log.rejected) ==> Holds(v, log, k)
  {
    var s := v.cache.pages[k].data;
    forall i | 0 <= i < v.next && i !in log.rejected ensures log.entries[i] in s {
      var j := LastByPosFrom(s, i);
    }
    if forall i | 0 <= i < |log.entries| :: i !in log.rejected { FullIsPrefix(log.entries, s, h); }
  }

  lemma FullIsPrefix(log: seq<Entry>, s: seq<Entry>, h: nat)
    requires Contiguous(log) && Logged(s, log, h) && h <= |log| && forall i | 0 <= i < h :: i in LastByPos(s)
    ensures s == log[..h]
  {
    AscendingLists(s);
    AscendingLists(log[..h]);
    PrefixMap(log, h);
    assert LastByPos(s) == LastByPos(log[..h]);
    ListsUnique(s, log[..h], LastByPos(s));
  }

  /** In every run some page is the log, as far as the stream is, exactly when the session is first
      viewed with entries in its log and none of their frames is rejected, or it never has any. */
  lemma NothingLostExactly(log: Log, head0: nat)
    requires Contiguous(log.entries) && head0 <= |log.entries|
    ensures Anchored(log, head0) && (forall i | 0 <= i < |log.entries| :: i !in log.rejected)
      <==> forall es: seq<ViewEvent> :: NoneLost(ViewAfter(log, head0, es), log)
  {
    if !Anchored(log, head0) {
      var es := FirstMissed(log);
    } else if i :| 0 <= i < |log.entries| && i in log.rejected {
      var es := RejectedMissed(log, head0, i);
    } else {
      forall es: seq<ViewEvent> ensures NoneLost(ViewAfter(log, head0, es), log) {
        var v := ViewAfter(log, head0, es);
        if v.mounted && v.cache.pages != map[] { var k := NothingLost(log, head0, es); }
      }
    }
  }

  // ---- What is lost ----

  const KEY := EntriesKey("s", "")

  /** A view mounted on an empty log and served from position 1 on, whose query then resolves with
      nothing, has a page that the stream will never begin. */
  lemma FirstMissed(log: Log) returns (es: seq<ViewEvent>)
    requires Contiguous(log.entries) && log.entries != []
    ensures !NoneLost(ViewAfter(log, 0, es), log)
  {
    ViewSnoc(log, 0, [], Mount(None, 1));
    assert ViewAfter(log, 0, [] + [Mount(None, 1)]) == View(EMPTY, true, 1, None, 0);
    ViewSnoc(log, 0, [] + [Mount(None, 1)], Fetch(KEY, 0, None));
    es := [] + [Mount(None, 1)] + [Fetch(KEY, 0, None)];
    var v := ViewAfter(log, 0, es);
    assert v.cache.pages == map[KEY := Page([], None)];
    assert KEY in v.cache.pages;
    forall k ensures !Holds(v, log, k) { }
  }

  function Appends(n: nat): seq<ViewEvent> { seq(n, i => Append) }

  lemma {:induction false} Appended(log: Log, head0: nat, n: nat)
    requires head0 + n <= |log.entries|
    ensures ViewAfter(log, head0, Appends(n)) == View(EMPTY, false, 0, None, head0 + n)
    decreases n
  {
    if n > 0 {
      Appended(log, head0, n - 1);
      assert Appends(n) == Appends(n - 1) + [Append];
      ViewSnoc(log, head0, Appends(n - 1), Append);
    } else {
      assert Appends(0) == [];
    }
  }

  /** A view whose only page is the log up to `i`. */
  function Fetched(log: Log, i: nat, mounted: bool, next: nat, lastId: Option<nat>): View
    requires i <= |log.entries|
  {
    View(EMPTY.(pages := map[KEY := Page(log.entries[..i], None)]), mounted, next, lastId, |log.entries|)
  }

  /** A page fetched up to a rejected entry lacks it once the stream has gone past. */
  lemma RejectedMissed(log: Log, head0: nat, i: nat) returns (es: seq<ViewEvent>)
    requires Contiguous(log.entries) && Anchored(log, head0) && i < |log.entries| && i in log.rejected
    ensures !NoneLost(ViewAfter(log, head0, es), log)
  {
    var resume := if i == 0 then None else Some(i - 1);
    es := Appends(|log.entries| - head0);
    Appended(log, head0, |log.entries| - head0);
    ViewSnoc(log, head0, es, Fetch(KEY, i, None));
    es := es + [Fetch(KEY, i, None)];
    FetchedUpTo(log, i);
    ViewSnoc(log, head0, es, Mount(resume, i));
    es := es + [Mount(resume, i)];
    MountedThere(log, i, resume);
    ViewSnoc(log, head0, es, Deliver);
    es := es + [Deliver];
    assert ViewAfter(log, head0, es) == Fetched(log, i, true, i + 1, Some(i));
    NotHeld(log, i);
  }

  lemma FetchedUpTo(log: Log, i: nat)
    requires i < |log.entries|
    ensures Then(log, View(EMPTY, false, 0, None, |log.entries|), Fetch(KEY, i, None)) == Fetched(log, i, false, 0, None)
  {
  }

  lemma MountedThere(log: Log, i: nat, resume: Option<nat>)
    requires Contiguous(log.entries) && i < |log.entries| && resume == if i == 0 then None else Some(i - 1)
    ensures Then(log, Fetched(log, i, false, 0, None), Mount(resume, i)) == Fetched(log, i, true, i, resume)
  {
    PrefixLatest(log.entries, i, Fetched(log, i, false, 0, None).cache.pages, resume);
  }

  lemma NotHeld(log: Log, i: nat)
    requires i < |log.entries|
    ensures !NoneLost(Fetched(log, i, true, i + 1, Some(i)), log)
  {
    var v := Fetched(log, i, true, i + 1, Some(i));
    assert KEY in v.cache.pages;
    forall k ensures !Holds(v, log, k) { }
  }

  lemma PrefixLatest(log: seq<Entry>, i: nat, pages: map<QueryKey, Page>, resume: Option<nat>)
    requires Contiguous(log) && i < |log| && pages.Keys == {KEY} && pages[KEY].data == log[..i]
    requires resume == if i == 0 then None else Some(i - 1)
    ensures IsLatest(pages, resume)
  {
    if i > 0 { assert log[..i][i - 1].pos == i - 1 && Attains(pages[KEY].data, resume); }
  }

  /** On an empty log the first connection may be served from position 1 on: when two events have come
      and the second is delivered, the page shows it without the first, and the stream is at the head. */
  lemma PageWithoutFirst(log: Log) returns (es: seq<ViewEvent>)
    requires Contiguous(log.entries) && |log.entries| == 2 && log.rejected == {}
    ensures var v := ViewAfter(log, 0, es);
      v.mounted && v.next == v.head == 2 && v.cache.pages == map[KEY := Page([log.entries[1]], None)]
  {
    es := [Fetch(KEY, 0, None), Mount(None, 1), Append, Append, Deliver];
    EmptyFetched(log);
    ViewPrefix(log, 0, es, 0);
    ViewPrefix(log, 0, es, 1);
    ViewPrefix(log, 0, es, 2);
    ViewPrefix(log, 0, es, 3);
    ViewPrefix(log, 0, es, 4);
    assert es[..0] == [] && es[..5] == es;
    SecondDelivered(log);
  }

  function Empty(mounted: bool, next: nat, head: nat): View {
    View(EMPTY.(pages := map[KEY := Page([], None)]), mounted, next, None, head)
  }

  lemma EmptyFetched(log: Log)
    requires |log.entries| == 2
    ensures Then(log, View(EMPTY, false, 0, None, 0), Fetch(KEY, 0, None)) == Empty(false, 0, 0)
    ensures Then(log, Empty(false, 0, 0), Mount(None, 1)) == Empty(true, 1, 0)
    ensures Then(log, Then(log, Empty(true, 1, 0), Append), Append) == Empty(true, 1, 2)
  {
  }

  lemma SecondDelivered(log: Log)
    requires |log.entries| == 2 && log.rejected == {}
    ensures var v := Then(log, Empty(true, 1, 2), Deliver);
      v.mounted && v.next == v.head == 2 && v.cache.pages == map[KEY := Page([log.entries[1]], None)]
  {
    IntoEmpty(log.entries[1]);
  }

  lemma IntoEmpty(e: Entry)
    ensures IntoAll(map[KEY := Page([], None)], e) == map[KEY := Page([e], None)]
  {
    AscendingInit([e]);
    SortOfSorted([e]);
    assert [] + [e] == [e];
    assert Upserted([], e) == [e];
  }

  lemma ViewPrefix(log: Log, head0: nat, es: seq<ViewEvent>, k: nat)
    requires k < |es|
    ensures ViewAfter(log, head0, es[..k + 1]) == Then(log, ViewAfter(log, head0, es[..k]), es[k])
  {
    assert es[..k + 1][..k] == es[..k];
  }

  // ---- Reaching the head ----

  /** Once the stream has delivered up to the head, that page has all entries but rejected ones, and is
      the whole log when there are none. */
  lemma ReachesTheHead(log: Log, head0: nat, es: seq<ViewEvent>) returns (k: QueryKey)
    requires Contiguous(log.entries) && Anchored(log, head0)
    requires var v := ViewAfter(log, head0, es); v.mounted && v.cache.pages != map[] && v.next == |log.entries|
    ensures var v := ViewAfter(log, head0, es);
      && k in v.cache.pages
      && (forall i | 0 <= i < |log.entries| && i !in log.rejected :: log.entries[i] in v.cache.pages[k].data)
      && ((forall i | 0 <= i < |log.entries| :: i !in log.rejected) ==> v.cache.pages[k].data == log.entries)
  {
    k := NothingLost(log, head0, es);
  }

  function Deliveries(n: nat): seq<ViewEvent> { seq(n, i => Deliver) }

  ghost predicate MountedAt(v: View, next: nat, head: nat) { v.mounted && v.next == next && v.head == head }

  /** And the stream can always get to the head, from any state a view can be in. */
  lemma {:induction false} StreamCatchesUp(log: Log, head0: nat, es: seq<ViewEvent>, next: nat, n: nat, head: nat)
    requires MountedAt(ViewAfter(log, head0, es), next, head) && next + n <= head <= |log.entries|
    ensures MountedAt(ViewAfter(log, head0, es + Deliveries(n)), next + n, head)
    decreases n
  {
    if n == 0 {
      assert es + Deliveries(0) == es;
    } else {
      StreamCatchesUp(log, head0, es, next, n - 1, head);
      assert es + Deliveries(n) == es + Deliveries(n - 1) + [Deliver];
      DeliverNext(log, head0, es + Deliveries(n - 1), next + n - 1, head);
    }
  }

  lemma DeliverNext(log: Log, head0: nat, es: seq<ViewEvent>, i: nat, head: nat)
    requires MountedAt(ViewAfter(log, head0, es), i, head) && i < head <= |log.entries|
    ensures MountedAt(ViewAfter(log, head0, es + [Deliver]), i + 1, head)
  {
    ViewSnoc(log, head0, es, Deliver);
  }
}
