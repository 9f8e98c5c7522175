/** What the ReaderWriterQueue constructor promises (libraries/moodycamel/readerwriterqueue.h:75-128). */
module SpscCapacity {
  import opened Arith
  import opened SpscQueue

  // ---- the constructor ----

  /** Usable slots the constructor provides, one slot of each block and one whole block of several being spare. */
  function Usable(count: int, size: int): int {
    if count == 1 then size - 1 else (count - 1) * (size - 1)
  }

  lemma BlockCountSuffices(maxSize: nat, maxBlock: nat)
    requires maxSize > 0 && maxBlock >= 2
    ensures var count := (maxSize + maxBlock * 2 - 3) / (maxBlock - 1);
            count >= 2 && Usable(count, maxBlock) >= maxSize
  {
  }

  method ReaderWriterQueue(maxSize: nat, maxBlock: nat) returns (q: Queue)
    requires maxSize > 0 && maxBlock >= 2
    ensures NewQueue(q) && Usable(|q.blocks|, q.largest) >= maxSize
    ensures q.largest == maxBlock || q.largest == Pow2(CeilLog2(maxSize + 1))
  {
    var blocks: seq<Block> := [];
    var largest := Pow2(CeilLog2(maxSize + 1));
    if largest > maxBlock * 2 {
      BlockCountSuffices(maxSize, maxBlock);
      var count := (maxSize + maxBlock * 2 - 3) / (maxBlock - 1);
      largest := maxBlock;
      var i := 0;
      while i != count
        invariant 0 <= i <= count && |blocks| == i
        invariant forall k :: 0 <= k < i ==> blocks[k] == EmptyBlock(largest, if k + 1 == i then 0 else k + 1)
        decreases count - i
      {
        if i > 0 {
          blocks := blocks[i - 1 := blocks[i - 1].(next := i)];
        }
        blocks := blocks + [EmptyBlock(largest, 0)];
        i := i + 1;
      }
    } else {
      blocks := [EmptyBlock(largest, 0)];
    }
    return Queue(blocks, 0, 0, largest);
  }

  // ---- full blocks ----

  predicate Full(b: Block)
    requires BlockOk(b)
  {
    Dist(b.front, b.tail, b.size) == b.size - 1
  }

  /** The producer leaves only full blocks behind, and the consumer empties only the front one. */
  predicate FullAt(q: Queue, h: History, k: nat)
    requires BlocksOk(q) && RingOk(q, h)
  {
    0 < k < h.tailAt ==> var b := q.blocks[h.ring[k]]; assert b in q.blocks; Full(b)
  }

  predicate Leaving(p: Producer) {
    p.CheckNext? || p.LoadNextFront? || p.WriteNextItem? || p.StoreNextTail? || p.LinkBlock? || p.StoreTailBlock?
  }

  function Held(h: History): int {
    |h.enqueued| - |h.dequeued|
  }

  /** A state, and the most elements the queue has held since the producer's call began. */
  datatype Tracked = Tracked(s: State, peak: int)

  function Max(a: int, b: int): int { if a < b then b else a }

  function TrackedStep(t: Tracked, m: Move, maxBlock: nat): Tracked
    requires WellFormed(t.s)
  {
    var s' := Step(t.s, m, maxBlock);
    Tracked(s', if m.Enqueue? && t.s.p == Ready then Held(s'.h) else Max(t.peak, Held(s'.h)))
  }

  predicate SizesOk(q: Queue, size: nat) {
    q.largest >= size >= 2 && forall b :: b in q.blocks ==> b.size >= size
  }

  ghost predicate Cap(t: Tracked, size: nat, count: nat)
    requires Inv(t.s)
  {
    var q, p, h := t.s.q, t.s.p, t.s.h;
    assert Tail(q) in q.blocks;
    && SizesOk(q, size) && |h.ring| >= count
    && (forall k: nat {:trigger FullAt(q, h, k)} :: FullAt(q, h, k))
    && (Leaving(p) && h.tailAt > 0 ==> Full(Tail(q)))
    && t.peak >= Held(h)
    && (p.CheckNext? ==> t.peak >= size - 1)
  }

  lemma {:induction false} ConcatAtLeast(blocks: seq<Block>, ids: seq<nat>, m: nat)
    requires Named(blocks, ids) && forall i :: i in ids ==> |Items(blocks[i])| >= m
    ensures |Concat(blocks, ids)| >= |ids| * m
    decreases |ids|
  {
    hide Items, BlockOk;
    if ids != [] {
      assert ids[0] in ids && forall i :: i in ids[1..] ==> i in ids;
      ConcatAtLeast(blocks, ids[1..], m);
      assert |ids| * m == (|ids| - 1) * m + m by { Distribute(|ids|, 1, m); }
    }
  }

  lemma {:induction false} ConcatHolds(blocks: seq<Block>, ids: seq<nat>, k: nat)
    requires Named(blocks, ids) && k < |ids|
    ensures ids[k] in ids && |Concat(blocks, ids)| >= |Items(blocks[ids[k]])|
    decreases |ids|
  {
    hide Items, BlockOk;
    if k > 0 {
      assert ids[0] in ids && forall i :: i in ids[1..] ==> i in ids;
      ConcatHolds(blocks, ids[1..], k - 1);
    }
  }

  lemma TailHeld(s: State)
    requires Inv(s)
    ensures Tail(s.q) in s.q.blocks && Held(s.h) >= Dist(Tail(s.q).front, Tail(s.q).tail, Tail(s.q).size)
  {
    hide LocalFrontOk, LocalTailOk, ConsumerOk, ProducerOk, SegmentOk, Items, Concat;
    assert Tail(s.q) in s.q.blocks;
    NamedRing(s.q, s.h);
    ConcatHolds(s.q.blocks, Segment(s.h), s.h.tailAt);
  }

  lemma ProduceSizes(s: State, maxBlock: nat, size: nat)
    requires Inv(s) && WellFormed(s) && SizesOk(s.q, size)
    ensures var s' := ProducerStep(s, maxBlock); SizesOk(s'.q, size) && |s'.h.ring| >= |s.h.ring|
  {
  }

  lemma SameSizes(q: Queue, q': Queue, size: nat)
    requires SizesOk(q, size) && q'.blocks == q.blocks && q'.largest == q.largest
    ensures SizesOk(q', size)
  {
  }

  lemma ConsumeSizes(s: State, size: nat)
    requires Inv(s) && WellFormed(s) && SizesOk(s.q, size)
    ensures var s' := ConsumerStep(s); SizesOk(s'.q, size) && |s'.h.ring| >= |s.h.ring|
  {
  }

  lemma StepSizes(s: State, m: Move, maxBlock: nat, size: nat)
    requires Inv(s) && WellFormed(s) && SizesOk(s.q, size)
    ensures SizesOk(Step(s, m, maxBlock).q, size) && |Step(s, m, maxBlock).h.ring| >= |s.h.ring|
  {
    hide Inv, SizesOk, ProducerStep, ConsumerStep;
    if m.Produce? {
      ProduceSizes(s, maxBlock, size);
    } else if m.Consume? {
      ConsumeSizes(s, size);
    } else {
      SameSizes(s.q, Step(s, m, maxBlock).q, size);
    }
  }

  lemma PutFullAt(q: Queue, h: History, id: nat, b: Block, h': History, k: nat)
    requires BlocksOk(q) && RingOk(q, h) && id < |q.blocks| && BlocksOk(Put(q, id, b)) && RingOk(Put(q, id, b), h')
    requires h'.ring == h.ring && h'.tailAt == h.tailAt
    requires FullAt(q, h, k) && (0 < k < h.tailAt ==> h.ring[k] != id)
    ensures FullAt(Put(q, id, b), h', k)
  {
  }

  lemma Apart(q: Queue, h: History, j: nat, k: nat)
    requires RingOk(q, h) && j < |h.ring| && k < |h.ring| && j != k
    ensures h.ring[j] != h.ring[k]
  {
  }

  lemma LinkFullAt(q: Queue, h: History, q': Queue, h': History, size: nat, e: int, k: nat)
    requires BlocksOk(q) && RingOk(q, h) && Linked(q, h, q', h', size, e) && BlocksOk(q') && RingOk(q', h')
    requires FullAt(q, h, k)
    ensures FullAt(q', h', k)
  {
  }

  lemma ProduceFullAt(t: Tracked, maxBlock: nat, size: nat, count: nat, k: nat)
    requires Inv(t.s) && WellFormed(t.s) && Cap(t, size, count) && Inv(ProducerStep(t.s, maxBlock))
    ensures FullAt(ProducerStep(t.s, maxBlock).q, ProducerStep(t.s, maxBlock).h, k)
  {
    hide LocalFrontOk, LocalTailOk, SegmentOk, Items, ContentsOk, ConsumerOk, RingNext, BlockOk, RingOk, Full, FullAt;
    var q, p, h := t.s.q, t.s.p, t.s.h;
    var s' := ProducerStep(t.s, maxBlock);
    assert FullAt(q, h, k);
    RingBounds(q, h);
    if 0 < k < h.tailAt { Apart(q, h, k, h.tailAt); }
    if p.LoadFront? || p.WriteItem? || p.StoreTail? {
      PutFullAt(q, h, q.tailBlock, s'.q.blocks[q.tailBlock], s'.h, k);
    } else if p.LoadNextFront? || p.WriteNextItem? || p.StoreNextTail? {
      UpcomingIs(q, p, h);
      if 0 < k < h.tailAt { Apart(q, h, k, h.tailAt + 1); }
      PutFullAt(q, h, Tail(q).next, s'.q.blocks[Tail(q).next], h, k);
    } else if p.LinkBlock? {
      LinkFullAt(q, h, s'.q, s'.h, s'.q.largest, p.e, k);
    } else if p.StoreTailBlock? {
      AdvanceFullAt(q, h, s'.q, s'.h, k);
    }
  }

  lemma RingBounds(q: Queue, h: History)
    requires RingOk(q, h)
    ensures h.tailAt < |h.ring| == |q.blocks| && h.ring[h.tailAt] == q.tailBlock && h.ring[0] == q.frontBlock
  {
  }

  lemma AdvanceFullAt(q: Queue, h: History, q': Queue, h': History, k: nat)
    requires BlocksOk(q) && RingOk(q, h) && BlocksOk(q') && RingOk(q', h')
    requires q'.blocks == q.blocks && h'.ring == h.ring && h'.tailAt == h.tailAt + 1
    requires FullAt(q, h, k) && BlockOk(Tail(q)) && (h.tailAt > 0 ==> Full(Tail(q)))
    ensures FullAt(q', h', k)
  {
  }

  lemma ConsumeFullAt(t: Tracked, size: nat, count: nat, k: nat)
    requires Inv(t.s) && WellFormed(t.s) && Cap(t, size, count) && Inv(ConsumerStep(t.s))
    ensures FullAt(ConsumerStep(t.s).q, ConsumerStep(t.s).h, k)
  {
    hide LocalFrontOk, LocalTailOk, SegmentOk, Items, ContentsOk, ProducerOk, RingNext, BlockOk, RingOk, Full, FullAt;
    var q, c, h := t.s.q, t.s.c, t.s.h;
    var s' := ConsumerStep(t.s);
    assert FullAt(q, h, k);
    RingBounds(q, h);
    if 0 < k < h.tailAt { Apart(q, h, k, 0); }
    if c.LoadTail? || c.ReloadTail? || c.StoreFront? {
      PutFullAt(q, h, q.frontBlock, s'.q.blocks[q.frontBlock], s'.h, k);
    } else if c.LoadNextTail? && c.op != Peek {
      RefreshFullAt(q, h, c.nextBlock, k);
    } else if c.StoreFrontBlock? {
      assert FullAt(q, h, k + 1);
      TurnRing(q, h, s'.q, s'.h);
      TurnFullAt(q, h, s'.q, s'.h, k);
    }
  }

  lemma RefreshFullAt(q: Queue, h: History, id: nat, k: nat)
    requires BlocksOk(q) && RingOk(q, h) && id < |q.blocks| && FullAt(q, h, k)
    ensures var q' := Put(q, id, q.blocks[id].(localTail := q.blocks[id].tail));
            BlocksOk(q') && RingOk(q', h) ==> FullAt(q', h, k)
  {
  }

  lemma TurnFullAt(q: Queue, h: History, q': Queue, h': History, k: nat)
    requires BlocksOk(q) && RingOk(q, h) && Turned(q, h, q', h') && BlocksOk(q') && RingOk(q', h')
    requires FullAt(q, h, k + 1)
    ensures FullAt(q', h', k)
  {
  }

  ghost predicate TailLeft(s: State)
    requires Inv(s)
  {
    Tail(s.q) in s.q.blocks && BlockOk(Tail(s.q)) && (Leaving(s.p) && s.h.tailAt > 0 ==> Full(Tail(s.q)))
  }

  lemma ProduceLeaving(t: Tracked, maxBlock: nat, size: nat, count: nat)
    requires Inv(t.s) && WellFormed(t.s) && Cap(t, size, count) && Inv(ProducerStep(t.s, maxBlock))
    ensures TailLeft(ProducerStep(t.s, maxBlock))
  {
    hide SegmentOk, Items, ContentsOk, RingNext, BlockOk, SizesOk, FullAt, LocalTailOk, LocalFrontOk, ConsumerOk;
    hide ProducerOk, Dist;
    var q, p := t.s.q, t.s.p;
    EndsOk(q);
    EndsOk(ProducerStep(t.s, maxBlock).q);
    if p.LoadFront? {
      FullTest(Tail(q));
      if !HasRoom(Tail(q)) { NoRoom(Tail(q)); }
    }
    if p.LinkBlock? { SameFull(Tail(q), Tail(ProducerStep(t.s, maxBlock).q)); }
    if p.LoadNextFront? || p.WriteNextItem? || p.StoreNextTail? {
      UpcomingTail(t.s);
    }
  }

  lemma SameFull(a: Block, b: Block)
    requires BlockOk(a) && BlockOk(b) && a.front == b.front && a.tail == b.tail && a.size == b.size
    ensures Full(a) <==> Full(b)
  {
  }

  lemma NoRoom(b: Block)
    requires BlockOk(b) && !HasRoom(b)
    ensures Full(b) && Full(b.(localFront := b.front))
  {
  }

  lemma ConsumeLeaving(t: Tracked, size: nat, count: nat)
    requires Inv(t.s) && WellFormed(t.s) && Cap(t, size, count) && Inv(ConsumerStep(t.s))
    ensures TailLeft(ConsumerStep(t.s))
  {
    hide SegmentOk, Items, ContentsOk, RingNext, BlockOk, SizesOk, FullAt, LocalTailOk, LocalFrontOk, ConsumerOk, ProducerOk;
    EndsOk(t.s.q);
    EndsOk(ConsumerStep(t.s).q);
    if t.s.h.tailAt > 0 { Apart(t.s.q, t.s.h, 0, t.s.h.tailAt); }
  }

  lemma LeavingKept(t: Tracked, m: Move, maxBlock: nat, size: nat, count: nat)
    requires Inv(t.s) && WellFormed(t.s) && Cap(t, size, count) && Inv(Step(t.s, m, maxBlock))
    ensures TailLeft(Step(t.s, m, maxBlock))
  {
    hide SegmentOk, ContentsOk, RingNext, BlockOk, SizesOk, FullAt, ConsumerOk, ProducerOk, ProducerStep, ConsumerStep, Full;
    EndsOk(t.s.q);
    if m.Produce? {
      ProduceLeaving(t, maxBlock, size, count);
    } else if m.Consume? {
      ConsumeLeaving(t, size, count);
    }
  }

  lemma UpcomingTail(s: State)
    requires Inv(s) && (s.p.LoadNextFront? || s.p.WriteNextItem? || s.p.StoreNextTail?)
    ensures Tail(s.q).next != s.q.tailBlock
  {
    UpcomingIs(s.q, s.p, s.h);
  }

  lemma CapKeeps(t: Tracked, m: Move, maxBlock: nat, size: nat, count: nat)
    requires Inv(t.s) && WellFormed(t.s) && Cap(t, size, count)
    ensures Inv(Step(t.s, m, maxBlock)) && Cap(TrackedStep(t, m, maxBlock), size, count)
  {
    hide Inv, Step, WellFormed, SizesOk, FullAt, Full;
    StepKeeps(t.s, m, maxBlock);
    var t' := TrackedStep(t, m, maxBlock);
    StepSizes(t.s, m, maxBlock, size);
    LeavingKept(t, m, maxBlock, size, count);
    InvParts(t'.s);
    forall k: nat ensures FullAt(t'.s.q, t'.s.h, k) {
      StepFullAt(t, m, maxBlock, size, count, k);
    }
    PeakKept(t, m, maxBlock, size, count);
  }

  lemma InvParts(s: State)
    requires Inv(s)
    ensures BlocksOk(s.q) && RingOk(s.q, s.h)
  {
  }

  lemma StepFullAt(t: Tracked, m: Move, maxBlock: nat, size: nat, count: nat, k: nat)
    requires Inv(t.s) && WellFormed(t.s) && Cap(t, size, count) && Inv(Step(t.s, m, maxBlock))
    ensures FullAt(Step(t.s, m, maxBlock).q, Step(t.s, m, maxBlock).h, k)
  {
    hide SizesOk, ProducerStep, ConsumerStep, SegmentOk, ProducerOk, ConsumerOk, ContentsOk, RingNext, BlockOk;
    assert FullAt(t.s.q, t.s.h, k);
    if m.Produce? {
      ProduceFullAt(t, maxBlock, size, count, k);
    } else if m.Consume? {
      ConsumeFullAt(t, size, count, k);
    }
  }

  /** Finding the tail block full means the queue held at least what the block can. */
  lemma PeakKept(t: Tracked, m: Move, maxBlock: nat, size: nat, count: nat)
    requires Inv(t.s) && WellFormed(t.s) && Cap(t, size, count) && Inv(Step(t.s, m, maxBlock))
    ensures var t' := TrackedStep(t, m, maxBlock);
            t'.peak >= Held(t'.s.h) && (t'.s.p.CheckNext? ==> t'.peak >= size - 1)
  {
    hide SegmentOk, ProducerOk, ConsumerOk, ContentsOk, RingNext, LocalFrontOk, LocalTailOk, FullAt, Items;
    TailHeld(t.s);
    FullTest(Tail(t.s.q));
  }

  ghost function TrackedAfter(t: Tracked, ms: seq<Move>, maxBlock: nat): (r: Tracked)
    requires Inv(t.s)
    ensures r.s == After(t.s, ms, maxBlock)
    decreases |ms|
  {
    if ms == [] then t
    else
      StepKeeps(t.s, ms[0], maxBlock);
      TrackedAfter(TrackedStep(t, ms[0], maxBlock), ms[1..], maxBlock)
  }

  lemma {:induction false} RunCap(t: Tracked, ms: seq<Move>, maxBlock: nat, size: nat, count: nat)
    requires Inv(t.s) && Cap(t, size, count)
    ensures Cap(TrackedAfter(t, ms, maxBlock), size, count)
    decreases |ms|
  {
    hide Inv, Cap, Step;
    if ms != [] {
      StepKeeps(t.s, ms[0], maxBlock);
      CapKeeps(t, ms[0], maxBlock, size, count);
      RunCap(TrackedStep(t, ms[0], maxBlock), ms[1..], maxBlock, size, count);
    }
  }

  lemma BeginCap(q: Queue)
    requires NewQueue(q)
    ensures Inv(Begin(q)) && Cap(Tracked(Begin(q), 0), q.largest, |q.blocks|)
  {
    NewQueueOk(q);
    hide Inv;
  }

  /** With every block of the ring in use, all but the front block are full. */
  lemma AllUsed(t: Tracked, size: nat, count: nat)
    requires Inv(t.s) && Cap(t, size, count) && Leaving(t.s.p) && t.s.h.tailAt + 1 == |t.s.h.ring|
    ensures Held(t.s.h) >= t.s.h.tailAt * (size - 1)
  {
    hide LocalFrontOk, LocalTailOk, SegmentOk, ProducerOk, ConsumerOk, Items, RingNext, BlockOk, Contents, Concat, FullAt;
    var q, h := t.s.q, t.s.h;
    ContentsSplit(q, h);
    var rest := h.ring[1..h.tailAt + 1];
    forall i | i in rest ensures i < |q.blocks| && |Items(q.blocks[i])| >= size - 1 {
      var k :| 0 <= k < |rest| && rest[k] == i;
      assert rest[k] == h.ring[k + 1];
      UsedFull(t, size, count, k + 1);
    }
    ConcatAtLeast(q.blocks, rest, size - 1);
  }

  lemma UsedFull(t: Tracked, size: nat, count: nat, k: nat)
    requires Inv(t.s) && Cap(t, size, count) && Leaving(t.s.p) && 0 < k <= t.s.h.tailAt
    ensures var q, i := t.s.q, t.s.h.ring[k];
            i < |q.blocks| && BlockOk(q.blocks[i]) && |Items(q.blocks[i])| >= size - 1
  {
    hide LocalFrontOk, LocalTailOk, SegmentOk, ProducerOk, ConsumerOk, RingNext, Contents, ContentsOk;
    assert FullAt(t.s.q, t.s.h, k);
    assert t.s.q.blocks[t.s.h.ring[k]] in t.s.q.blocks;
  }

  /**
   * The constructor's promise: try_enqueue returns false, in any interleaving, only if at some instant of the call
   * the queue held maxSize elements or more.
   */
  lemma RejectsOnlyWhenFull(q: Queue, maxSize: nat, ms: seq<Move>, maxBlock: nat)
    requires NewQueue(q) && Usable(|q.blocks|, q.largest) >= maxSize
    ensures Inv(Begin(q))
    ensures var t := TrackedAfter(Tracked(Begin(q), 0), ms, maxBlock);
            t.s.p.CheckNext? && ProducerStep(t.s, maxBlock).p == Ready ==> t.peak >= maxSize
  {
    BeginCap(q);
    hide Inv, Cap, TrackedAfter, Begin, ProducerStep;
    var t := TrackedAfter(Tracked(Begin(q), 0), ms, maxBlock);
    RunCap(Tracked(Begin(q), 0), ms, maxBlock, q.largest, |q.blocks|);
    if t.s.p.CheckNext? {
      RejectedAt(t, q.largest, |q.blocks|, maxBlock);
    }
  }

  lemma RejectedAt(t: Tracked, size: nat, count: nat, maxBlock: nat)
    requires Inv(t.s) && WellFormed(t.s) && Cap(t, size, count) && t.s.p.CheckNext? && count >= 1
    ensures ProducerStep(t.s, maxBlock).p == Ready ==> t.peak >= Usable(count, size)
  {
    hide LocalFrontOk, LocalTailOk, ProducerOk, ConsumerOk, RingNext, ContentsOk, FullAt, BlockOk, SegmentOk;
    if ProducerStep(t.s, maxBlock).p == Ready {
      UpcomingIs(t.s.q, t.s.p, t.s.h);
      AllUsed(t, size, count);
      UsableGrows(count, |t.s.h.ring|, size);
    }
  }

  lemma UsableGrows(count: nat, blocks: nat, size: nat)
    requires 1 <= count <= blocks && size >= 2
    ensures Usable(count, size) <= if blocks == 1 then size - 1 else (blocks - 1) * (size - 1)
  {
    var n := size - 1;
    Distribute(blocks - 1, count - 1, n);
    assert (blocks - count) * n >= 0;
    if blocks > 1 && count == 1 { MulAtLeast(blocks - 1, n); }
  }
}
