/** The per-tenant promise chain of the auto-charge engine (`withTenantLock`), for any key.
    Calls are numbered in the order in which they are made. */
module KeyedMutex {

  import opened Options

  type Key = string
  type CallId = nat

  /** `Waiting` for the previous tail; `Running` its function; `Settled`, its result promise
      resolved or rejected but the `finally` not yet run; `Cleaned` after it. */
  datatype Phase = Waiting | Running | Settled | Cleaned

  datatype Call = Call(key: Key, prev: Option<CallId>, phase: Phase)

  /** `tails` is the engine's map; `calls` are the promise chains it gave rise to. */
  datatype Mutex = Mutex(tails: map<Key, CallId>, calls: seq<Call>) {

    /** The synchronous part of a call: chain behind the recorded tail and become the tail. */
    function Called(k: Key): Mutex {
      var prev := if k in tails then Some(tails[k]) else None;
      Mutex(tails[k := |calls|], calls + [Call(k, prev, Waiting)])
    }

    predicate Over(c: CallId) {
      c < |calls| && (calls[c].phase == Settled || calls[c].phase == Cleaned)
    }

    /** `prev.then(fn, fn)`: the function may start once the previous call's result is settled,
        resolved or rejected alike, or at once when there was no tail. */
    predicate CanStart(c: CallId) {
      && c < |calls| && calls[c].phase == Waiting
      && (calls[c].prev == None || Over(calls[c].prev.value))
    }

    function With(c: CallId, p: Phase): Mutex
      requires c < |calls|
    {
      this.(calls := calls[c := calls[c].(phase := p)])
    }

    /** The `finally`: drop the tail if it is still this call's. */
    function Cleanup(c: CallId): Mutex
      requires c < |calls|
    {
      var k := calls[c].key;
      With(c, Cleaned).(tails := if k in tails && tails[k] == c then tails - {k} else tails)
    }
  }

  function Unlocked(): Mutex { Mutex(map[], []) }

  datatype LockEvent = Invoke(k: Key) | Start(c: CallId) | Settle(c: CallId) | Finally(c: CallId)

  predicate LockEnabled(m: Mutex, e: LockEvent) {
    match e
    case Invoke(_) => true
    case Start(c) => m.CanStart(c)
    case Settle(c) => c < |m.calls| && m.calls[c].phase == Running
    case Finally(c) => c < |m.calls| && m.calls[c].phase == Settled
  }

  function LockStep(m: Mutex, e: LockEvent): Mutex
    requires LockEnabled(m, e)
  {
    match e
    case Invoke(k) => m.Called(k)
    case Start(c) => m.With(c, Running)
    case Settle(c) => m.With(c, Settled)
    case Finally(c) => m.Cleanup(c)
  }

  // ---- The invariant ----

  /** Once call `j` has started, every earlier call for its key is over. */
  ghost predicate InOrder(m: Mutex, i: CallId, j: CallId) {
    i < j < |m.calls| && m.calls[i].key == m.calls[j].key && m.calls[j].phase != Waiting ==> m.Over(i)
  }

  /** No call for `k` was made between `i` and `j`. */
  ghost predicate NoneBetween(m: Mutex, k: Key, i: int, j: int) {
    forall h | i < h < j && 0 <= h < |m.calls| :: m.calls[h].key != k
  }

  ghost predicate Chained(m: Mutex, j: CallId) {
    j < |m.calls| ==>
      match m.calls[j].prev
      case Some(i) => i < j && m.calls[i].key == m.calls[j].key && NoneBetween(m, m.calls[j].key, i, j)
      case None => forall i | 0 <= i < j && m.calls[i].key == m.calls[j].key :: m.Over(i)
  }

  /** The tail of a key is its last call, not yet cleaned up. */
  ghost predicate TailIsLast(m: Mutex, k: Key) {
    k in m.tails ==>
      && m.tails[k] < |m.calls| && m.calls[m.tails[k]].key == k && m.calls[m.tails[k]].phase != Cleaned
      && NoneBetween(m, k, m.tails[k], |m.calls|)
  }

  /** A key without a tail has no call outstanding, and its last one has been cleaned up. */
  ghost predicate NoTailNoneLeft(m: Mutex, c: CallId) {
    c < |m.calls| && m.calls[c].key !in m.tails ==>
      m.Over(c) && (NoneBetween(m, m.calls[c].key, c, |m.calls|) ==> m.calls[c].phase == Cleaned)
  }

  ghost predicate LockInv(m: Mutex) {
    && (forall i, j :: InOrder(m, i, j))
    && (forall j :: Chained(m, j))
    && (forall k :: TailIsLast(m, k))
    && (forall c :: NoTailNoneLeft(m, c))
  }

  lemma LockStepKeeps(m: Mutex, e: LockEvent)
    requires LockInv(m) && LockEnabled(m, e)
    ensures LockInv(LockStep(m, e))
  {
    var n := LockStep(m, e);
    forall i, j ensures InOrder(n, i, j) { OrderKept(m, e, i, j); }
    forall j ensures Chained(n, j) { ChainKept(m, e, j); }
    forall k ensures TailIsLast(n, k) { TailKept(m, e, k); }
    forall c ensures NoTailNoneLeft(n, c) { NoTailKept(m, e, c); }
  }

  lemma OverKept(m: Mutex, e: LockEvent, i: CallId)
    requires LockEnabled(m, e) && m.Over(i)
    ensures LockStep(m, e).Over(i)
  {
  }

  /** A call that starts follows the last call for its key, so all earlier ones are over. */
  lemma StarterIsNext(m: Mutex, j: CallId, i: CallId)
    requires LockInv(m) && m.CanStart(j)
    requires i < j && m.calls[i].key == m.calls[j].key
    ensures m.Over(i)
  {
    assert Chained(m, j);
    if m.calls[j].prev.Some? {
      var p := m.calls[j].prev.value;
      assert i <= p;
      assert InOrder(m, i, p);
    }
  }

  lemma OrderKept(m: Mutex, e: LockEvent, i: CallId, j: CallId)
    requires LockInv(m) && LockEnabled(m, e)
    ensures InOrder(LockStep(m, e), i, j)
  {
    var n := LockStep(m, e);
    if i < j < |n.calls| && n.calls[i].key == n.calls[j].key && n.calls[j].phase != Waiting {
      if e == Start(j) {
        StarterIsNext(m, j, i);
      } else {
        assert InOrder(m, i, j);
      }
      OverKept(m, e, i);
    }
  }

  lemma ChainKept(m: Mutex, e: LockEvent, j: CallId)
    requires LockInv(m) && LockEnabled(m, e)
    ensures Chained(LockStep(m, e), j)
  {
    var n := LockStep(m, e);
    if j < |m.calls| {
      assert Chained(m, j);
      if m.calls[j].prev.None? {
        forall i | 0 <= i < j && n.calls[i].key == n.calls[j].key ensures n.Over(i) { OverKept(m, e, i); }
      }
    } else if j < |n.calls| {
      assert e.Invoke? && TailIsLast(m, e.k);
      if e.k !in m.tails {
        forall i | 0 <= i < j && n.calls[i].key == e.k ensures n.Over(i) {
          assert NoTailNoneLeft(m, i);
          OverKept(m, e, i);
        }
      }
    }
  }

  lemma TailKept(m: Mutex, e: LockEvent, k: Key)
    requires LockInv(m) && LockEnabled(m, e)
    ensures TailIsLast(LockStep(m, e), k)
  {
    assert TailIsLast(m, k);
  }

  lemma NoTailKept(m: Mutex, e: LockEvent, c: CallId)
    requires LockInv(m) && LockEnabled(m, e)
    ensures NoTailNoneLeft(LockStep(m, e), c)
  {
    var n := LockStep(m, e);
    if c < |n.calls| && n.calls[c].key !in n.tails {
      assert NoTailNoneLeft(m, c);
      if n.calls[c].key in m.tails {
        // The tail has just been dropped by the `finally` of the key's last call.
        assert e.Finally? && TailIsLast(m, n.calls[c].key);
        assert c <= e.c;
        assert InOrder(m, c, e.c);
      }
      if m.Over(c) { OverKept(m, e, c); }
      var k := n.calls[c].key;
      if NoneBetween(n, k, c, |n.calls|) {
        assert forall h | c < h < |m.calls| :: n.calls[h].key == m.calls[h].key;
        assert NoneBetween(m, k, c, |m.calls|);
      }
    }
  }

  // ---- What the mutex promises ----

  /** Calls for one key never overlap, and they start in the order in which they were made. */
  lemma OneAtATimeInOrder(m: Mutex, i: CallId, j: CallId)
    requires LockInv(m) && i < j < |m.calls| && m.calls[i].key == m.calls[j].key
    ensures !(m.calls[i].phase == Running && m.calls[j].phase == Running)
    ensures m.calls[j].phase != Waiting ==> m.Over(i)
  {
    assert InOrder(m, i, j);
  }

  /** Nothing blocks: if calls for a key are waiting and none is running, the first of them can
      start, however the calls before it ended. */
  lemma FirstWaiterCanStart(m: Mutex, c: CallId)
    requires LockInv(m) && c < |m.calls| && m.calls[c].phase == Waiting
    requires forall i | 0 <= i < c && m.calls[i].key == m.calls[c].key :: m.calls[i].phase != Waiting
    ensures m.CanStart(c) || exists i :: 0 <= i < c && m.calls[i].key == m.calls[c].key && m.calls[i].phase == Running
  {
    assert Chained(m, c);
  }

  /** The tail map holds a key while a call for it is outstanding, and lets it go exactly when
      the key's last call has been cleaned up. */
  lemma TailHeldUntilLast(m: Mutex, c: CallId)
    requires LockInv(m) && c < |m.calls|
    ensures !m.Over(c) ==> m.calls[c].key in m.tails
    ensures NoneBetween(m, m.calls[c].key, c, |m.calls|) ==>
              (m.calls[c].key in m.tails <==> m.calls[c].phase != Cleaned)
  {
    assert NoTailNoneLeft(m, c);
    assert TailIsLast(m, m.calls[c].key);
  }

  function LocksAfter(es: seq<LockEvent>): Mutex
    decreases |es|
  {
    if es == [] then Unlocked()
    else
      var before := LocksAfter(es[..|es| - 1]);
      if LockEnabled(before, es[|es| - 1]) then LockStep(before, es[|es| - 1]) else before
  }

  /** The invariant holds after every list of events. */
  lemma {:induction false} LocksReachable(es: seq<LockEvent>)
    ensures LockInv(LocksAfter(es))
    decreases |es|
  {
    if es != [] {
      LocksReachable(es[..|es| - 1]);
      var before := LocksAfter(es[..|es| - 1]);
      if LockEnabled(before, es[|es| - 1]) { LockStepKeeps(before, es[|es| - 1]); }
    }
  }

  /** The engine's map and the two stretches of `withTenantLock` that touch it; the promises are
      the event loop's. */
  class TenantLock {
    var tenantTails: map<Key, CallId>
    var calls: seq<Call>

    ghost function State(): Mutex
      reads this
    {
      Mutex(tenantTails, calls)
    }

    constructor ()
      ensures State() == Unlocked()
    {
      tenantTails, calls := map[], [];
    }

    method Invoke(k: Key) returns (c: CallId)
      modifies this
      ensures c == |old(calls)| && State() == LockStep(old(State()), LockEvent.Invoke(k))
    {
      var prev := if k in tenantTails then Some(tenantTails[k]) else None;
      c := |calls|;
      calls := calls + [Call(k, prev, Waiting)];
      tenantTails := tenantTails[k := c];
    }

    method Advance(c: CallId, p: Phase)
      requires c < |calls|
      modifies this`calls
      ensures State() == old(State()).With(c, p)
    {
      calls := calls[c := calls[c].(phase := p)];
    }

    method Finally(c: CallId)
      requires LockEnabled(State(), LockEvent.Finally(c))
      modifies this
      ensures State() == LockStep(old(State()), LockEvent.Finally(c))
    {
      var k := calls[c].key;
      calls := calls[c := calls[c].(phase := Cleaned)];
      if k in tenantTails && tenantTails[k] == c {
        tenantTails := tenantTails - {k};
      }
    }
  }
}
