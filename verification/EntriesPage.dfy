/** An entries page of the console's query cache, and the upsert that folds stream frames into it. */
module EntriesPages {
  import opened Options

  /** A session entry: its position, and the rest of it as JSON text. */
  datatype Entry = Entry(pos: nat, body: string)

  datatype Page = Page(data: seq<Entry>, nextCursor: Option<string>)

  /** In the order of the positions, without repeats. */
  ghost predicate Ascending(s: seq<Entry>) {
    forall i, j | 0 <= i < j < |s| :: s[i].pos < s[j].pos
  }

  /** The last entry at each position. */
  ghost function LastByPos(s: seq<Entry>): map<nat, Entry> {
    if s == [] then map[] else LastByPos(s[..|s| - 1])[s[|s| - 1].pos := s[|s| - 1]]
  }

  /** `s` lists exactly the entries of `m`, in the order of their positions. */
  ghost predicate Lists(s: seq<Entry>, m: map<nat, Entry>) {
    && Ascending(s)
    && (forall i | 0 <= i < |s| :: s[i].pos in m && m[s[i].pos] == s[i])
    && |m| == |s|
  }

  lemma ListsButLast(s: seq<Entry>, m: map<nat, Entry>)
    requires Lists(s, m) && s != []
    ensures Lists(s[..|s| - 1], m - {s[|s| - 1].pos})
  {
    SizeWithout(m, s[|s| - 1].pos);
  }

  lemma SizeWithout<T>(m: map<nat, T>, k: nat)
    requires k in m
    ensures |m - {k}| == |m| - 1
  {
    assert (m - {k}).Keys == m.Keys - {k};
    assert |m - {k}| == |(m - {k}).Keys| && |m| == |m.Keys|;
  }

  lemma SizeWith<T>(m: map<nat, T>, k: nat, v: T)
    ensures |m[k := v]| == if k in m then |m| else |m| + 1
  {
    assert m[k := v].Keys == m.Keys + {k};
    assert |m[k := v]| == |m[k := v].Keys| && |m| == |m.Keys|;
  }

  /** Nothing of the map is missing from the list. */
  lemma {:induction false} ListsAll(s: seq<Entry>, m: map<nat, Entry>, k: nat) returns (i: nat)
    requires Lists(s, m) && k in m
    ensures i < |s| && s[i] == m[k] && s[i].pos == k
    decreases |s|
  {
    if s[|s| - 1].pos == k {
      i := |s| - 1;
    } else {
      ListsButLast(s, m);
      i := ListsAll(s[..|s| - 1], m - {s[|s| - 1].pos}, k);
    }
  }

  /** A map can be listed in one way only. */
  lemma {:induction false} ListsUnique(s: seq<Entry>, t: seq<Entry>, m: map<nat, Entry>)
    requires Lists(s, m) && Lists(t, m)
    ensures s == t
    decreases |s|
  {
    if s != [] {
      var x, y := s[|s| - 1], t[|t| - 1];
      var i := ListsAll(t, m, x.pos);
      var j := ListsAll(s, m, y.pos);
      assert x.pos == y.pos;
      ListsButLast(s, m);
      ListsButLast(t, m);
      ListsUnique(s[..|s| - 1], t[..|t| - 1], m - {x.pos});
      assert s == s[..|s| - 1] + [x] && t == t[..|t| - 1] + [y];
    }
  }

  /** A sorted page lists its own entries. */
  lemma {:induction false} AscendingLists(s: seq<Entry>)
    requires Ascending(s)
    ensures Lists(s, LastByPos(s))
    decreases |s|
  {
    if s != [] {
      var init, x := s[..|s| - 1], s[|s| - 1];
      AscendingLists(init);
      ListsLarger(init, x, LastByPos(init));
    }
  }

  /** Appending an entry whose position is larger than all. */
  lemma ListsLarger(s: seq<Entry>, e: Entry, m: map<nat, Entry>)
    requires Lists(s, m) && (s == [] || s[|s| - 1].pos < e.pos)
    ensures e.pos !in m && Lists(s + [e], m[e.pos := e])
  {
    if e.pos in m { var i := ListsAll(s, m, e.pos); }
    SizeWith(m, e.pos, e);
  }

  lemma {:induction false} LastByPosAppend(a: seq<Entry>, b: seq<Entry>)
    ensures LastByPos(a + b) == LastByPos(a) + LastByPos(b)
    decreases |b|
  {
    if b == [] {
      assert a + b == a;
    } else {
      var init, x := b[..|b| - 1], b[|b| - 1];
      LastByPosAppend(a, init);
      assert (a + b)[..|a + b| - 1] == a + init;
      assert (LastByPos(a) + LastByPos(init))[x.pos := x] == LastByPos(a) + LastByPos(init)[x.pos := x];
    }
  }

  // ---- sort((a, b) => a.pos - b.pos), which is stable ----

  /** `e` after every entry whose position is not larger. */
  function Place(s: seq<Entry>, e: Entry): seq<Entry> {
    if s == [] || s[|s| - 1].pos <= e.pos then s + [e]
    else Place(s[..|s| - 1], e) + [s[|s| - 1]]
  }

  function SortByPos(s: seq<Entry>): seq<Entry> {
    if s == [] then [] else Place(SortByPos(s[..|s| - 1]), s[|s| - 1])
  }

  lemma {:induction false} PlaceLists(s: seq<Entry>, e: Entry, m: map<nat, Entry>)
    requires Lists(s, m) && e.pos !in m
    ensures Lists(Place(s, e), m[e.pos := e])
    ensures s != [] ==> Place(s, e)[|s|].pos <= (if s[|s| - 1].pos <= e.pos then e.pos else s[|s| - 1].pos)
    decreases |s|
  {
    if s == [] || s[|s| - 1].pos <= e.pos {
      ListsLarger(s, e, m);
    } else {
      var init, last := s[..|s| - 1], s[|s| - 1];
      var m': map<nat, Entry> := m - {last.pos};
      ListsButLast(s, m);
      PlaceLists(init, e, m');
      ListsLarger(Place(init, e), last, m'[e.pos := e]);
      assert m'[e.pos := e][last.pos := last] == m[e.pos := e];
    }
  }

  ghost predicate Distinct(s: seq<Entry>) {
    forall i, j | 0 <= i < j < |s| :: s[i].pos != s[j].pos
  }

  /** The sort puts entries with distinct positions in order, and loses none. */
  lemma {:induction false} SortLists(s: seq<Entry>)
    requires Distinct(s)
    ensures Lists(SortByPos(s), LastByPos(s))
    decreases |s|
  {
    if s != [] {
      var init, x := s[..|s| - 1], s[|s| - 1];
      SortLists(init);
      if x.pos in LastByPos(init) { var i := LastByPosFrom(init, x.pos); }
      PlaceLists(SortByPos(init), x, LastByPos(init));
    }
  }

  lemma {:induction false} LastByPosFrom(s: seq<Entry>, k: nat) returns (i: nat)
    requires k in LastByPos(s)
    ensures i < |s| && s[i].pos == k && LastByPos(s)[k] == s[i]
    decreases |s|
  {
    if s[|s| - 1].pos == k { i := |s| - 1; } else { i := LastByPosFrom(s[..|s| - 1], k); }
  }

  lemma AscendingInit(s: seq<Entry>)
    requires Ascending(s) && s != []
    ensures var init, last := s[..|s| - 1], s[|s| - 1];
      Ascending(init) && Place(init, last) == s
  {
    var init, last := s[..|s| - 1], s[|s| - 1];
    assert init != [] ==> init[|init| - 1].pos < last.pos;
    assert s == init + [last];
  }

  lemma {:induction false} SortOfSorted(s: seq<Entry>)
    requires Ascending(s)
    ensures SortByPos(s) == s
    decreases |s|
  {
    if s != [] {
      AscendingInit(s);
      SortOfSorted(s[..|s| - 1]);
    }
  }

  // ---- upsertEntry ----

  /** `find`: the first entry at a position. */
  function Find(s: seq<Entry>, k: nat): (r: Option<Entry>)
    ensures r == None <==> forall i | 0 <= i < |s| :: s[i].pos != k
    ensures r.Some? ==> r.value in s && r.value.pos == k
  {
    if s == [] then None else if s[0].pos == k then Some(s[0]) else Find(s[1..], k)
  }

  function Upserted(s: seq<Entry>, e: Entry): seq<Entry> {
    match Find(s, e.pos)
    case Some(existing) =>
      if existing == e then s
      else seq(|s|, i requires 0 <= i < |s| => if s[i].pos == e.pos then e else s[i])
    case None => SortByPos(s + [e])
  }

  function UpsertEntry(page: Page, e: Entry): Page { page.(data := Upserted(page.data, e)) }

  /** On a sorted page the upsert is a map update. */
  lemma UpsertUpdates(s: seq<Entry>, e: Entry, m: map<nat, Entry>)
    requires Lists(s, m)
    ensures Lists(Upserted(s, e), m[e.pos := e])
  {
    SizeWith(m, e.pos, e);
    match Find(s, e.pos)
    case Some(existing) =>
      assert m[e.pos] == existing;
      if existing == e { assert m[e.pos := e] == m; }
    case None =>
      assert (s + [e])[..|s|] == s;
      SortOfSorted(s);
      if e.pos in m { var i := ListsAll(s, m, e.pos); }
      PlaceLists(s, e, m);
  }

  lemma UpsertShown(s: seq<Entry>, e: Entry)
    requires Ascending(s) && e in s
    ensures Upserted(s, e) == s
  {
    var i :| 0 <= i < |s| && s[i] == e;
    assert s[i].pos == e.pos;
  }

  function UpsertAll(s: seq<Entry>, es: seq<Entry>): seq<Entry>
    decreases |es|
  {
    if es == [] then s else Upserted(UpsertAll(s, es[..|es| - 1]), es[|es| - 1])
  }

  lemma {:induction false} UpsertAllUpdates(s: seq<Entry>, es: seq<Entry>, m: map<nat, Entry>)
    requires Lists(s, m)
    ensures Lists(UpsertAll(s, es), m + LastByPos(es))
    decreases |es|
  {
    if es == [] {
      assert m + LastByPos(es) == m;
    } else {
      var init, x := es[..|es| - 1], es[|es| - 1];
      UpsertAllUpdates(s, init, m);
      UpsertUpdates(UpsertAll(s, init), x, m + LastByPos(init));
      assert (m + LastByPos(init))[x.pos := x] == m + LastByPos(es);
    }
  }
}
