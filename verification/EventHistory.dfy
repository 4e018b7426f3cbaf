/** The numbered event log of a session as the backend serves it: positions 0, 1, 2, ... with no
    gap, read in pages or replayed from where a reader left off. */
module EventHistory {
  import opened Options

  /** The positions from `lo` up to, and not including, `hi`. */
  function Range(lo: nat, hi: nat): (r: seq<nat>)
    ensures |r| == if lo <= hi then hi - lo else 0
    ensures forall i | 0 <= i < |r| :: r[i] == lo + i
    decreases hi - lo
  {
    if lo >= hi then [] else [lo] + Range(lo + 1, hi)
  }

  lemma {:induction false} RangeSplit(lo: nat, mid: nat, hi: nat)
    requires lo <= mid <= hi
    ensures Range(lo, hi) == Range(lo, mid) + Range(mid, hi)
    decreases mid - lo
  {
    if lo < mid { RangeSplit(lo + 1, mid, hi); }
  }

  lemma RangeSnoc(lo: nat, hi: nat)
    requires lo <= hi
    ensures Range(lo, hi + 1) == Range(lo, hi) + [hi]
  {
    RangeSplit(lo, hi, hi + 1);
  }

  /** The projection's positional read of a log with `head` entries. */
  function ReadEvents(head: nat, start: Option<nat>, limit: nat): seq<nat> {
    var from := if start.Some? then start.value else 0;
    Range(from, if from + limit < head then from + limit else head)
  }

  datatype Page = Page(data: seq<nat>, nextCursor: Option<nat>)

  /** The history endpoint: one entry more than the page tells whether there is another page. */
  function HistoryPage(head: nat, limit: nat, cursor: Option<nat>): Page {
    var entries := ReadEvents(head, cursor, limit + 1);
    var hasMore := |entries| > limit;
    var page := if hasMore then entries[..limit] else entries;
    var from := if cursor.Some? then cursor.value else 0;
    Page(page, if hasMore && |page| > 0 then Some(from + |page|) else None)
  }

  lemma RangePrefix(from: nat, n: nat)
    ensures Range(from, from + n + 1)[..n] == Range(from, from + n)
  {
    RangeSplit(from, from + n, from + n + 1);
  }

  /** A page is the stretch of the log that starts at its cursor, as long as the limit and the log
      allow, and the next cursor is where that stretch ends; there is one exactly when the log goes on. */
  lemma PageIs(head: nat, limit: nat, cursor: Option<nat>)
    requires 1 <= limit && (cursor.Some? ==> cursor.value <= head)
    ensures var p := HistoryPage(head, limit, cursor);
      var from := if cursor.Some? then cursor.value else 0;
      && p.data == Range(from, from + |p.data|) && |p.data| <= limit && from + |p.data| <= head
      && (from + |p.data| < head ==> p.nextCursor == Some(from + |p.data|))
      && (from + |p.data| == head ==> p.nextCursor == None)
      && |p.data| == (if head - from < limit then head - from else limit)
  {
    var from := if cursor.Some? then cursor.value else 0;
    if from + limit < head {
      RangePrefix(from, limit);
      assert HistoryPage(head, limit, cursor) == Page(Range(from, from + limit), Some(from + limit));
    } else {
      assert ReadEvents(head, cursor, limit + 1) == Range(from, head);
      assert HistoryPage(head, limit, cursor) == Page(Range(from, head), None);
    }
  }

  /** Following the cursors from the start reads the whole log once, in order. */
  function AllPages(head: nat, limit: nat, cursor: Option<nat>): seq<nat>
    requires 1 <= limit && (cursor.Some? ==> cursor.value <= head)
    decreases head - (if cursor.Some? then cursor.value else 0)
  {
    PageIs(head, limit, cursor);
    var p := HistoryPage(head, limit, cursor);
    if p.nextCursor.None? then p.data else p.data + AllPages(head, limit, p.nextCursor)
  }

  lemma {:induction false} PagesCoverLog(head: nat, limit: nat, cursor: Option<nat>)
    requires 1 <= limit && (cursor.Some? ==> cursor.value <= head)
    ensures AllPages(head, limit, cursor) == Range(if cursor.Some? then cursor.value else 0, head)
    decreases head - (if cursor.Some? then cursor.value else 0)
  {
    PageIs(head, limit, cursor);
    var p := HistoryPage(head, limit, cursor);
    if p.nextCursor.Some? {
      PagesCoverLog(head, limit, p.nextCursor);
      RangeSplit(if cursor.Some? then cursor.value else 0, p.nextCursor.value, head);
    }
  }

  /** Where the stream of a connection may begin that was made, with this header, to a log of `head`
      entries: only a first connection to an empty log may begin elsewhere than the replay does. */
  predicate MayServeFrom(lastEventId: Option<nat>, head: nat, origin: nat) {
    lastEventId.Some? || 0 < head ==> origin == ReplayStart(lastEventId)
  }

  /** Where a replay starts: right after the last event seen, or at the beginning. */
  function ReplayStart(lastEventId: Option<nat>): nat {
    if lastEventId.Some? then lastEventId.value + 1 else 0
  }
}
