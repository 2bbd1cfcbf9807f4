/** A bounded, lazily grown pool of Composer handles (composerpool.go).

    The pool creates handles on demand until PoolMax of them exist, handing
    each new one straight to the caller; after that, callers take handles
    from a FIFO channel of capacity PoolMax into which returned handles are
    put.  The lock makes the counter's test-and-increment atomic and each
    channel operation is atomic on its own, so every call has a single
    step that changes state; the model runs those steps one after another.
    Locks are not modelled, and a channel operation that would block becomes
    a precondition.

    The module has two layers:
    - a value-level state machine (PoolState, GetStep, PutStep, Run) with the
      lemmas that state what the pool promises;
    - the class ComposerPool, whose fields the methods update in place and
      whose every step is tied to the state machine.
*/
module ComposerPoolModel {

  /** A Composer handle.  The pool only assigns its Index, once, at creation. */
  datatype Composer = Composer(index: int)

  /** The abstract state of a pool.
      count, max, capacity and queue are the pool's own data (PoolCount,
      PoolMax, cap(Pool) and the channel's buffer, front first); created
      (every handle made so far, in creation order) and out (the handles
      currently held by callers) are bookkeeping the source does not keep. */
  datatype PoolState = PoolState(
    count: int,
    max: int,
    capacity: int,
    queue: seq<Composer>,
    created: seq<Composer>,
    out: set<Composer>)

  /** One call on the pool. */
  datatype Op = Get | Put(handle: Composer)

  datatype Option<T> = None | Some(value: T)

  /** The handles occurring in a sequence. */
  function Elems(q: seq<Composer>): set<Composer>
  {
    set h | h in q
  }

  /** No handle occurs twice in q. */
  predicate Distinct(q: seq<Composer>)
  {
    forall i, j :: 0 <= i < j < |q| ==> q[i] != q[j]
  }

  /** The i-th handle ever created carries index i, and count handles exist. */
  predicate Numbered(s: PoolState)
  {
    |s.created| == s.count &&
    forall i :: 0 <= i < |s.created| ==> s.created[i] == Composer(i)
  }

  /** What holds of the pool whatever handles callers put back:
      the counter stays within [0, max] and the channel within its capacity. */
  predicate WellFormed(s: PoolState)
  {
    s.capacity == s.max &&
    0 <= s.count <= s.max &&
    |s.queue| <= s.capacity &&
    Numbered(s)
  }

  /** Conservation, which holds when callers put back exactly the handles they
      got: every created handle is either queued (once) or checked out,
      never both, and nothing else is queued or checked out. */
  predicate Conserved(s: PoolState)
  {
    WellFormed(s) &&
    Distinct(s.queue) &&
    Elems(s.queue) !! s.out &&
    Elems(s.queue) + s.out == Elems(s.created)
  }

  /** NewComposerPool(max): no handles yet, an empty channel of capacity max. */
  function Init(max: int): PoolState
    requires max >= 1
  {
    PoolState(0, max, max, [], [], {})
  }

  /** Get does not block: either a new handle may be created, or the channel
      holds one. */
  predicate CanGet(s: PoolState)
  {
    s.count < s.max || |s.queue| > 0
  }

  /** Put does not block: the channel has room. */
  predicate CanPut(s: PoolState)
  {
    |s.queue| < s.capacity
  }

  /** Get: below the ceiling, create the handle numbered count and bump the
      counter without touching the channel; at the ceiling, receive the
      front of the channel.  Returns the new state and the handle. */
  function GetStep(s: PoolState): (PoolState, Composer)
    requires CanGet(s)
  {
    if s.count < s.max then
      var h := Composer(s.count);
      (s.(count := s.count + 1, created := s.created + [h], out := s.out + {h}), h)
    else
      (s.(queue := s.queue[1..], out := s.out + {s.queue[0]}), s.queue[0])
  }

  /** Put: send the handle to the back of the channel. */
  function PutStep(s: PoolState, h: Composer): PoolState
    requires CanPut(s)
  {
    s.(queue := s.queue + [h], out := s.out - {h})
  }

  /** The state after running ops from s, or None if some call would block. */
  function Run(s: PoolState, ops: seq<Op>): Option<PoolState>
    decreases |ops|
  {
    if ops == [] then Some(s)
    else match ops[0]
      case Get => if CanGet(s) then Run(GetStep(s).0, ops[1..]) else None
      case Put(h) => if CanPut(s) then Run(PutStep(s, h), ops[1..]) else None
  }

  /** Every Put in ops, from s on, returns a handle its caller holds (one Put
      per Get). */
  predicate Disciplined(s: PoolState, ops: seq<Op>)
    decreases |ops|
  {
    ops == [] ||
    match ops[0]
      case Get => CanGet(s) ==> Disciplined(GetStep(s).0, ops[1..])
      case Put(h) => h in s.out && (CanPut(s) ==> Disciplined(PutStep(s, h), ops[1..]))
  }

  // ---------------------------------------------------------------------
  // Counting lemmas

  lemma {:induction false} DistinctCard(q: seq<Composer>)
    requires Distinct(q)
    ensures |Elems(q)| == |q|
  {
    if q != [] {
      assert Elems(q) == {q[0]} + Elems(q[1..]);
      assert q[0] !in Elems(q[1..]);
      DistinctCard(q[1..]);
    }
  }

  lemma SubsetCard(a: set<Composer>, b: set<Composer>)
    requires a <= b
    ensures |a| <= |b|
  {
    assert b == a + (b - a);
  }

  /** Created handles have distinct indices, exactly 0 .. count-1. */
  lemma CreatedAreNumbered(s: PoolState)
    requires Numbered(s)
    ensures Distinct(s.created)
    ensures forall h :: h in Elems(s.created) <==> 0 <= h.index < s.count
    ensures |Elems(s.created)| == s.count
  {
    forall h: Composer | 0 <= h.index < s.count
      ensures h in Elems(s.created)
    {
      assert s.created[h.index] == h;
    }
    DistinctCard(s.created);
  }

  // ---------------------------------------------------------------------
  // Construction

  /** NewComposerPool: conservation holds from the start.  The first two
      ensures only spell out Init field by field. */
  lemma InitProperties(max: int)
    requires max >= 1
    ensures Init(max).count == 0 && Init(max).max == max
    ensures Init(max).capacity == max && Init(max).queue == []
    ensures Conserved(Init(max))
  {
    assert Elems([]) == {};
  }

  // ---------------------------------------------------------------------
  // Get

  /** The two branches of Get, spelled out field by field from GetStep (no
      proof beyond the definition; the invariant lemmas below carry the
      proof work).  Below the ceiling Get makes the handle numbered by the
      old counter, adds exactly one to the counter and leaves the channel
      alone, even when it holds handles; at the ceiling it takes the front
      of the channel and removes only that.  PoolMax and the capacity never
      change. */
  lemma GetCases(s: PoolState)
    requires CanGet(s)
    ensures GetStep(s).0.max == s.max && GetStep(s).0.capacity == s.capacity
    ensures s.count < s.max ==>
      GetStep(s).1.index == s.count &&
      GetStep(s).0.count == s.count + 1 &&
      GetStep(s).0.queue == s.queue
    ensures s.count >= s.max ==>
      GetStep(s).1 == s.queue[0] &&
      GetStep(s).0.queue == s.queue[1..] &&
      GetStep(s).0.count == s.count
  {
  }

  /** The ceiling is never passed, because creation is guarded by count < max. */
  lemma GetPreservesWellFormed(s: PoolState)
    requires WellFormed(s) && CanGet(s)
    ensures WellFormed(GetStep(s).0)
  {
  }

  /** Get keeps conservation, and the handle it returns was not held by any
      caller: no handle is issued to two holders at once. */
  lemma GetPreservesConserved(s: PoolState)
    requires Conserved(s) && CanGet(s)
    ensures Conserved(GetStep(s).0)
    ensures GetStep(s).1 !in s.out
    ensures GetStep(s).1 in Elems(GetStep(s).0.created)
  {
    if s.count < s.max {
      CreateKeepsConserved(s);
    } else {
      ReceiveKeepsConserved(s);
    }
  }

  /** The creating branch: the new handle was never created before, so it is
      neither queued nor held. */
  lemma CreateKeepsConserved(s: PoolState)
    requires Conserved(s) && s.count < s.max
    ensures Conserved(GetStep(s).0)
    ensures GetStep(s).1 !in s.out
  {
    var (t, h) := GetStep(s);
    assert h !in Elems(s.created);
    assert Elems(t.created) == Elems(s.created) + {h};
    assert t.queue == s.queue && t.out == s.out + {h};
  }

  /** The receiving branch: the front handle moves from the channel to its
      caller. */
  lemma ReceiveKeepsConserved(s: PoolState)
    requires Conserved(s) && s.count >= s.max && |s.queue| > 0
    ensures Conserved(GetStep(s).0)
    ensures GetStep(s).1 !in s.out
  {
    var (t, h) := GetStep(s);
    assert Elems(s.queue) == {h} + Elems(t.queue);
    assert h !in Elems(t.queue);
    assert t.created == s.created && t.out == s.out + {h};
  }

  // ---------------------------------------------------------------------
  // Put

  /** Put spelled out field by field from PutStep (no proof beyond the
      definition): it appends to the back of the channel and leaves the
      counter, PoolMax and the capacity unchanged. */
  lemma PutAppends(s: PoolState, h: Composer)
    requires CanPut(s)
    ensures PutStep(s, h).queue == s.queue + [h]
    ensures PutStep(s, h).count == s.count && PutStep(s, h).max == s.max
    ensures PutStep(s, h).capacity == s.capacity
  {
  }

  lemma PutPreservesWellFormed(s: PoolState, h: Composer)
    requires WellFormed(s) && CanPut(s)
    ensures WellFormed(PutStep(s, h))
  {
  }

  /** Under conservation there are never more queued handles than created
      ones: |queue| <= PoolCount <= PoolMax. */
  lemma QueueWithinCount(s: PoolState)
    requires Conserved(s)
    ensures |s.queue| <= s.count <= s.max
  {
    CreatedAreNumbered(s);
    DistinctCard(s.queue);
    SubsetCard(Elems(s.queue), Elems(s.created));
  }

  /** Returning a held handle never blocks: the channel always has room for it. */
  lemma PutNeverBlocks(s: PoolState, h: Composer)
    requires Conserved(s) && h in s.out
    ensures CanPut(s)
  {
    CreatedAreNumbered(s);
    DistinctCard(s.queue);
    assert h in Elems(s.created) && h !in Elems(s.queue);
    SubsetCard(Elems(s.queue), Elems(s.created) - {h});
  }

  /** Putting back a held handle keeps conservation. */
  lemma PutPreservesConserved(s: PoolState, h: Composer)
    requires Conserved(s) && h in s.out
    ensures CanPut(s) && Conserved(PutStep(s, h))
  {
    PutNeverBlocks(s, h);
    var t := PutStep(s, h);
    assert h !in Elems(s.queue);
    assert Elems(t.queue) == Elems(s.queue) + {h};
  }

  // ---------------------------------------------------------------------
  // Whole runs

  /** Along any run that does not block, the invariant holds, PoolMax and the
      capacity stay fixed and the counter never decreases. */
  lemma {:induction false} RunPreservesWellFormed(s: PoolState, ops: seq<Op>)
    requires WellFormed(s) && Run(s, ops).Some?
    ensures WellFormed(Run(s, ops).value)
    ensures Run(s, ops).value.max == s.max && Run(s, ops).value.capacity == s.capacity
    ensures s.count <= Run(s, ops).value.count
    decreases |ops|
  {
    if ops != [] {
      match ops[0]
      case Get =>
        GetPreservesWellFormed(s);
        RunPreservesWellFormed(GetStep(s).0, ops[1..]);
      case Put(h) =>
        PutPreservesWellFormed(s, h);
        RunPreservesWellFormed(PutStep(s, h), ops[1..]);
    }
  }

  /** Along a run with one Put per Get, conservation holds at the end,
      with at most PoolMax handles ever created and |queue| <= PoolCount. */
  lemma {:induction false} RunPreservesConserved(s: PoolState, ops: seq<Op>)
    requires Conserved(s) && Disciplined(s, ops) && Run(s, ops).Some?
    ensures Conserved(Run(s, ops).value)
    ensures |Run(s, ops).value.queue| <= Run(s, ops).value.count <= s.max
    decreases |ops|
  {
    if ops == [] {
      QueueWithinCount(s);
    } else {
      match ops[0]
      case Get =>
        GetPreservesConserved(s);
        RunPreservesConserved(GetStep(s).0, ops[1..]);
      case Put(h) =>
        PutPreservesConserved(s, h);
        RunPreservesConserved(PutStep(s, h), ops[1..]);
    }
  }

  /** The run of ops from s reaches call k without blocking, and call k is a
      Get that cannot proceed: the ceiling is reached and the channel is
      empty. */
  predicate BlocksAtGet(s: PoolState, ops: seq<Op>, k: int)
  {
    0 <= k < |ops| && ops[k].Get? &&
    Run(s, ops[..k]).Some? && !CanGet(Run(s, ops[..k]).value)
  }

  /** A disciplined run from a conserved state never blocks on a Put: if it
      blocks at all, it blocks at a Get, at the ceiling with an empty
      channel. */
  lemma {:induction false} DisciplinedRunBlocksOnlyOnGet(s: PoolState, ops: seq<Op>)
    requires Conserved(s) && Disciplined(s, ops) && Run(s, ops).None?
    ensures exists k :: BlocksAtGet(s, ops, k)
    decreases |ops|
  {
    assert ops != [];
    match ops[0]
    case Get =>
      if CanGet(s) {
        var t := GetStep(s).0;
        GetPreservesConserved(s);
        DisciplinedRunBlocksOnlyOnGet(t, ops[1..]);
        var k :| BlocksAtGet(t, ops[1..], k);
        assert ops[..k + 1][1..] == ops[1..][..k];
        assert Run(s, ops[..k + 1]) == Run(t, ops[1..][..k]);
        assert BlocksAtGet(s, ops, k + 1);
      } else {
        assert ops[..0] == [];
        assert BlocksAtGet(s, ops, 0);
      }
    case Put(h) =>
      PutPreservesConserved(s, h);
      var t := PutStep(s, h);
      DisciplinedRunBlocksOnlyOnGet(t, ops[1..]);
      var k :| BlocksAtGet(t, ops[1..], k);
      assert ops[..k + 1][1..] == ops[1..][..k];
      assert Run(s, ops[..k + 1]) == Run(t, ops[1..][..k]);
      assert BlocksAtGet(s, ops, k + 1);
  }

  // ---------------------------------------------------------------------
  // Scenarios

  /** Capacity 2: two Gets give distinct handles numbered 0 and 1; a third
      Get would block. */
  lemma ScenarioTwoGets()
    ensures GetStep(Init(2)).1 == Composer(0)
    ensures GetStep(GetStep(Init(2)).0).1 == Composer(1)
    ensures !CanGet(GetStep(GetStep(Init(2)).0).0)
  {
  }

  /** Capacity 3: Get, Put the handle back, Get again.  Below the ceiling Get
      always creates, so the second Get makes handle 1 while handle 0 stays
      queued. */
  lemma ScenarioReuseBelowCeiling()
    ensures
      var (s1, h0) := GetStep(Init(3));
      var s2 := PutStep(s1, h0);
      var (s3, h1) := GetStep(s2);
      h0 == Composer(0) && h1 == Composer(1) && s3.queue == [h0] && s3.count == 2
  {
  }

  /** Capacity 1: a second Get blocks until the first handle is put back, and
      then receives exactly that handle without creating another. */
  lemma ScenarioCapacityOne()
    ensures
      var (s1, h0) := GetStep(Init(1));
      !CanGet(s1) && CanPut(s1) &&
      var s2 := PutStep(s1, h0);
      CanGet(s2) && GetStep(s2).1 == h0 && GetStep(s2).0.count == 1
  {
  }

  // ---------------------------------------------------------------------
  // The pool object

  /** ComposerPool: the counter and the channel buffer change in place;
      PoolMax and the channel's capacity are fixed at construction. */
  class ComposerPool {
    var queue: seq<Composer>
    const capacity: int
    var count: int
    const max: int
    ghost var created: seq<Composer>
    ghost var out: set<Composer>

    ghost function State(): PoolState
      reads this
    {
      PoolState(count, max, capacity, queue, created, out)
    }

    ghost predicate Valid()
      reads this
    {
      WellFormed(State())
    }

    /** NewComposerPool(max). */
    constructor (max: int)
      requires max >= 1
      ensures State() == Init(max)
      ensures Valid() && Conserved(State())
      ensures count == 0 && this.max == max && capacity == max && queue == []
    {
      this.queue := [];
      this.capacity := max;
      this.count := 0;
      this.max := max;
      this.created := [];
      this.out := {};
      new;
      InitProperties(max);
    }

    /** ComposerPool.Get.  Blocks (here: is not allowed) when the ceiling is
        reached and the channel is empty. */
    method Get() returns (result: Composer)
      requires Valid()
      requires count < max || |queue| > 0
      modifies this
      ensures (State(), result) == GetStep(old(State()))
      ensures Valid()
      ensures old(count) < max ==>
        result.index == old(count) && count == old(count) + 1 && queue == old(queue)
      ensures old(count) >= max ==>
        result == old(queue)[0] && queue == old(queue)[1..] && count == old(count)
      ensures old(Conserved(State())) ==> Conserved(State()) && result !in old(out)
    {
      ghost var s := State();
      if count < max {
        result := Composer(count);
        count := count + 1;
        created := created + [result];
        out := out + {result};
      } else {
        result := queue[0];
        queue := queue[1..];
        out := out + {result};
      }
      GetPreservesWellFormed(s);
      if Conserved(s) {
        GetPreservesConserved(s);
      }
    }

    /** ComposerPool.Put.  Blocks (here: is not allowed) when the channel is
        full; always reports true. */
    method Put(composer: Composer) returns (result: bool)
      requires Valid()
      requires |queue| < capacity
      modifies this
      ensures State() == PutStep(old(State()), composer)
      ensures Valid()
      ensures result
      ensures queue == old(queue) + [composer] && count == old(count)
      ensures old(Conserved(State())) && composer in old(out) ==> Conserved(State())
    {
      ghost var s := State();
      queue := queue + [composer];
      out := out - {composer};
      result := true;
      PutPreservesWellFormed(s, composer);
      if Conserved(s) && composer in s.out {
        PutPreservesConserved(s, composer);
      }
    }
  }

  /** The same scenario through the pool object: after the Put the channel
      holds handle 0 and the counter is 1; the next Get creates handle 1. */
  method ScenarioGetPutGet() returns (h: Composer, h2: Composer)
    ensures h == Composer(0) && h2 == Composer(1)
  {
    var pool := new ComposerPool(3);
    h := pool.Get();
    var ok := pool.Put(h);
    assert pool.count == 1 && pool.queue == [h] && ok;
    h2 := pool.Get();
  }
}
