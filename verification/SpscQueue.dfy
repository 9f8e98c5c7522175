/**
 * The single-producer single-consumer block-ring queue (libraries/moodycamel/readerwriterqueue.h), one shared access
 * a step, sequentially consistent.
 */
module SpscQueue {

  // ---- the shared structure ----

  datatype Block = Block(front: nat, tail: nat, localFront: nat, localTail: nat, size: nat, data: seq<int>, next: nat)

  /** Blocks are named by their position in allocation order. */
  datatype Queue = Queue(blocks: seq<Block>, frontBlock: nat, tailBlock: nat, largest: nat)

  /** (i + 1) & sizeMask, the size being a power of two. */
  function Advance(i: nat, size: nat): (r: nat)
    requires i < size
    ensures r == (if i + 1 == size then 0 else i + 1)
  {
    (i + 1) % size
  }

  // ---- the two threads ----

  /** Where inner_enqueue is: named after the next shared access. */
  datatype Producer =
    | Ready
    | LoadFront(e: int, alloc: bool)
    | WriteItem(e: int)
    | StoreTail(e: int)
    | CheckNext(e: int, alloc: bool)
    | LoadNextFront(e: int)
    | WriteNextItem(e: int)
    | StoreNextTail(e: int)
    | LinkBlock(e: int)
    | StoreTailBlock(e: int)

  datatype Op = TryDequeue | Peek

  /** Where try_dequeue or peek is; fields only the consumer writes are read with the access before. */
  datatype Consumer =
    | Quiet
    | LoadTail(op: Op)
    | LoadTailBlock(op: Op)
    | ReloadTail(op: Op)
    | LoadNext(op: Op)
    | LoadNextTail(op: Op, nextBlock: nat)
    | StoreFrontBlock(nextBlock: nat)
    | ReadItem(op: Op, block: nat)
    | StoreFront(v: int)

  datatype Outcome = Pending | Took(v: int) | Peeked(v: int) | SawEmpty

  /**
   * Bookkeeping no step of the queue reads: the ring from the front block on, the tail block's place in it, what has
   * been enqueued and dequeued, and whether the queue was empty during the consumer's call.
   */
  datatype History = History(ring: seq<nat>, tailAt: nat, enqueued: seq<int>, dequeued: seq<int>, emptySeen: bool)

  datatype State = State(q: Queue, p: Producer, c: Consumer, out: Outcome, h: History)

  // ---- steps ----

  function Front(q: Queue): Block
    requires q.frontBlock < |q.blocks|
  {
    q.blocks[q.frontBlock]
  }

  function Tail(q: Queue): Block
    requires q.tailBlock < |q.blocks|
  {
    q.blocks[q.tailBlock]
  }

  function Put(q: Queue, id: nat, b: Block): Queue
    requires id < |q.blocks|
  {
    q.(blocks := q.blocks[id := b])
  }

  predicate BlockOk(b: Block) {
    2 <= b.size == |b.data| && b.front < b.size && b.tail < b.size && b.localFront < b.size && b.localTail < b.size
  }

  predicate BlocksOk(q: Queue) {
    && (forall b :: b in q.blocks ==> BlockOk(b) && b.next < |q.blocks|)
    && q.frontBlock < |q.blocks| && q.tailBlock < |q.blocks|
  }

  predicate ThreadsOk(q: Queue, c: Consumer) {
    (c.LoadNextTail? || c.StoreFrontBlock? ==> c.nextBlock < |q.blocks|) && (c.ReadItem? ==> c.block < |q.blocks|)
  }

  predicate WellFormed(s: State) {
    BlocksOk(s.q) && ThreadsOk(s.q, s.c) && s.h.tailAt < |s.h.ring| && s.q.largest >= 2
  }

  function NewBlock(size: nat, e: int, next: nat): Block
    requires size >= 2
  {
    Block(0, 1, 0, 1, size, seq(size, i => if i == 0 then e else 0), next)
  }

  /** The producer calls enqueue (alloc) or try_enqueue. */
  function BeginEnqueue(s: State, e: int, alloc: bool): State
    requires WellFormed(s)
  {
    var b := Tail(s.q);
    s.(p := if Advance(b.tail, b.size) != b.localFront then WriteItem(e) else LoadFront(e, alloc))
  }

  function ProducerStep(s: State, maxBlock: nat): State
    requires WellFormed(s)
  {
    var q := s.q;
    var b := Tail(q);
    assert b in q.blocks;
    var n := q.blocks[b.next];
    assert n in q.blocks;
    match s.p
    case Ready => s
    case LoadFront(e, alloc) =>
      s.(q := Put(q, q.tailBlock, b.(localFront := b.front)),
         p := if Advance(b.tail, b.size) != b.front then WriteItem(e) else CheckNext(e, alloc))
    case WriteItem(e) => s.(q := Put(q, q.tailBlock, b.(data := b.data[b.tail := e])), p := StoreTail(e))
    case StoreTail(e) =>
      s.(q := Put(q, q.tailBlock, b.(tail := Advance(b.tail, b.size))), p := Ready,
         h := s.h.(enqueued := s.h.enqueued + [e]))
    case CheckNext(e, alloc) =>
      s.(p := if b.next != q.frontBlock then LoadNextFront(e) else if alloc then LinkBlock(e) else Ready)
    case LoadNextFront(e) => s.(q := Put(q, b.next, n.(localFront := n.front)), p := WriteNextItem(e))
    case WriteNextItem(e) => s.(q := Put(q, b.next, n.(data := n.data[n.tail := e])), p := StoreNextTail(e))
    case StoreNextTail(e) => s.(q := Put(q, b.next, n.(tail := Advance(n.tail, n.size))), p := StoreTailBlock(e))
    case LinkBlock(e) =>
      var size := if q.largest >= maxBlock then q.largest else q.largest * 2;
      s.(q := q.(blocks := q.blocks[q.tailBlock := b.(next := |q.blocks|)] + [NewBlock(size, e, b.next)], largest := size),
         p := StoreTailBlock(e),
         h := s.h.(ring := s.h.ring[..s.h.tailAt + 1] + [|q.blocks|] + s.h.ring[s.h.tailAt + 1..]))
    case StoreTailBlock(e) =>
      s.(q := q.(tailBlock := b.next), p := Ready,
         h := s.h.(enqueued := s.h.enqueued + [e], tailAt := s.h.tailAt + 1))
  }

  function BeginConsume(s: State, op: Op): State
    requires WellFormed(s)
  {
    var b := Front(s.q);
    s.(c := if b.front != b.localTail then ReadItem(op, s.q.frontBlock) else LoadTail(op), out := Pending,
       h := s.h.(emptySeen := false))
  }

  function ConsumerStep(s: State): State
    requires WellFormed(s)
  {
    var q := s.q;
    var b := Front(q);
    assert b in q.blocks;
    match s.c
    case Quiet => s
    case LoadTail(op) =>
      s.(q := Put(q, q.frontBlock, b.(localTail := b.tail)),
         c := if b.front != b.tail then ReadItem(op, q.frontBlock) else LoadTailBlock(op),
         h := s.h.(emptySeen := |s.h.enqueued| == |s.h.dequeued|))
    case LoadTailBlock(op) =>
      if q.frontBlock != q.tailBlock then s.(c := ReloadTail(op)) else s.(c := Quiet, out := SawEmpty)
    case ReloadTail(op) =>
      s.(q := Put(q, q.frontBlock, b.(localTail := b.tail)),
         c := if b.front != b.tail then ReadItem(op, q.frontBlock) else LoadNext(op))
    case LoadNext(op) => s.(c := LoadNextTail(op, b.next))
    case LoadNextTail(op, next) =>
      var n := q.blocks[next];
      if op == Peek then s.(c := ReadItem(op, next))
      else s.(q := Put(q, next, n.(localTail := n.tail)), c := StoreFrontBlock(next))
    case StoreFrontBlock(next) =>
      s.(q := q.(frontBlock := next), c := ReadItem(TryDequeue, next),
         h := s.h.(ring := s.h.ring[1..] + [s.h.ring[0]], tailAt := if s.h.tailAt == 0 then 0 else s.h.tailAt - 1))
    case ReadItem(op, block) =>
      var n := q.blocks[block];
      assert n in q.blocks;
      if op == Peek then s.(c := Quiet, out := Peeked(n.data[n.front])) else s.(c := StoreFront(n.data[n.front]))
    case StoreFront(v) =>
      s.(q := Put(q, q.frontBlock, b.(front := Advance(b.front, b.size))), c := Quiet, out := Took(v),
         h := s.h.(dequeued := s.h.dequeued + [v]))
  }

  datatype Move = Enqueue(e: int, alloc: bool) | Produce | Call(op: Op) | Consume

  function Step(s: State, m: Move, maxBlock: nat): State
    requires WellFormed(s)
  {
    match m
    case Enqueue(e, alloc) => if s.p == Ready then BeginEnqueue(s, e, alloc) else s
    case Produce => ProducerStep(s, maxBlock)
    case Call(op) => if s.c == Quiet then BeginConsume(s, op) else s
    case Consume => ConsumerStep(s)
  }

  // ---- what a block holds ----

  /** How far t is ahead of f around the block. */
  function Dist(f: nat, t: nat, size: nat): (d: nat)
    requires f < size && t < size
    ensures d < size
  {
    if f <= t then t - f else t + size - f
  }

  function At(f: nat, k: nat, size: nat): (i: nat)
    requires f < size && k < size
    ensures i < size
  {
    if f + k < size then f + k else f + k - size
  }

  function Items(b: Block): (r: seq<int>)
    requires BlockOk(b)
    ensures |r| == Dist(b.front, b.tail, b.size)
  {
    seq(Dist(b.front, b.tail, b.size),
        k requires 0 <= k < Dist(b.front, b.tail, b.size) => b.data[At(b.front, k, b.size)])
  }

  predicate HasRoom(b: Block)
    requires BlockOk(b)
  {
    Dist(b.front, b.tail, b.size) < b.size - 1
  }

  lemma FullTest(b: Block)
    requires BlockOk(b)
    ensures HasRoom(b) <==> Advance(b.tail, b.size) != b.front
  {
  }

  lemma ItemsPush(b: Block)
    requires BlockOk(b) && HasRoom(b)
    ensures Items(b.(tail := Advance(b.tail, b.size))) == Items(b) + [b.data[b.tail]]
  {
  }

  lemma ItemsPop(b: Block)
    requires BlockOk(b) && b.front != b.tail
    ensures Items(b) == [b.data[b.front]] + Items(b.(front := Advance(b.front, b.size)))
  {
  }

  lemma ItemsWrite(b: Block, e: int)
    requires BlockOk(b) && HasRoom(b)
    ensures Items(b.(data := b.data[b.tail := e])) == Items(b)
  {
  }

  /** A stale localFront only makes the block look fuller than it is. */
  predicate LocalFrontOk(b: Block)
    requires BlockOk(b)
  {
    Dist(b.localFront, b.front, b.size) + Dist(b.front, b.tail, b.size) < b.size
  }

  predicate LocalTailOk(b: Block)
    requires BlockOk(b)
  {
    Dist(b.front, b.localTail, b.size) <= Dist(b.front, b.tail, b.size)
  }

  lemma LocalFrontTest(b: Block)
    requires BlockOk(b) && LocalFrontOk(b) && Advance(b.tail, b.size) != b.localFront
    ensures HasRoom(b)
  {
  }

  // ---- what a run of blocks holds ----

  predicate Named(blocks: seq<Block>, ids: seq<nat>) {
    forall i :: i in ids ==> i < |blocks| && BlockOk(blocks[i])
  }

  function Concat(blocks: seq<Block>, ids: seq<nat>): seq<int>
    requires Named(blocks, ids)
    decreases |ids|
  {
    if ids == [] then []
    else
      assert ids[0] in ids && forall i :: i in ids[1..] ==> i in ids;
      Items(blocks[ids[0]]) + Concat(blocks, ids[1..])
  }

  lemma {:induction false} ConcatLast(blocks: seq<Block>, ids: seq<nat>, id: nat)
    requires Named(blocks, ids + [id])
    ensures id in ids + [id] && (forall i :: i in ids ==> i in ids + [id])
    ensures Concat(blocks, ids + [id]) == Concat(blocks, ids) + Items(blocks[id])
    decreases |ids|
  {
    hide Items, BlockOk;
    assert (ids + [id])[|ids|] == id;
    forall i | i in ids ensures i in ids + [id] {
    }
    if ids == [] {
      assert [] + [id] == [id];
    } else {
      assert (ids + [id])[1..] == ids[1..] + [id];
      assert forall i :: i in ids[1..] + [id] ==> i in ids + [id];
      ConcatLast(blocks, ids[1..], id);
    }
  }

  /** Only what the named blocks hold matters. */
  lemma {:induction false} ConcatSame(blocks: seq<Block>, other: seq<Block>, ids: seq<nat>)
    requires Named(blocks, ids) && Named(other, ids)
    requires forall i :: i in ids ==> Items(blocks[i]) == Items(other[i])
    ensures Concat(blocks, ids) == Concat(other, ids)
    decreases |ids|
  {
    hide Items, BlockOk;
    if ids != [] {
      assert ids[0] in ids && forall i :: i in ids[1..] ==> i in ids;
      ConcatSame(blocks, other, ids[1..]);
    }
  }

  // ---- the invariant ----

  predicate RingNext(q: Queue, ring: seq<nat>, k: nat)
    requires k < |ring|
  {
    && ring[k] < |q.blocks|
    && q.blocks[ring[k]].next == ring[if k + 1 == |ring| then 0 else k + 1]
  }

  /** The next pointers make one ring of all blocks, from the front block on. */
  predicate RingOk(q: Queue, h: History) {
    && h.tailAt < |h.ring| == |q.blocks|
    && (forall k {:trigger RingNext(q, h.ring, k)} :: 0 <= k < |h.ring| ==> RingNext(q, h.ring, k))
    && (forall j, k :: 0 <= j < k < |h.ring| ==> h.ring[j] != h.ring[k])
    && (forall k :: 0 <= k < |h.ring| ==> h.ring[k] < |q.blocks|)
    && h.ring[0] == q.frontBlock && h.ring[h.tailAt] == q.tailBlock
  }

  /** What block k of the ring holds outside the front block: something up to the tail block, nothing after it. */
  predicate SegmentAt(q: Queue, p: Producer, h: History, k: nat)
    requires BlocksOk(q) && RingOk(q, h) && k < |h.ring|
  {
    var b := q.blocks[h.ring[k]];
    assert b in q.blocks;
    if k <= h.tailAt then k == 0 || b.front != b.tail
    else Items(b) == if p.StoreTailBlock? && k == h.tailAt + 1 then [p.e] else []
  }

  predicate SegmentOk(q: Queue, p: Producer, h: History)
    requires BlocksOk(q) && RingOk(q, h)
  {
    forall k {:trigger SegmentAt(q, p, h, k)} :: 0 <= k < |h.ring| ==> SegmentAt(q, p, h, k)
  }

  /** The block the producer is about to move to. */
  function Upcoming(q: Queue, h: History): Block
    requires BlocksOk(q) && RingOk(q, h) && h.tailAt + 1 < |h.ring|
  {
    q.blocks[h.ring[h.tailAt + 1]]
  }

  predicate ProducerOk(q: Queue, p: Producer, h: History)
    requires BlocksOk(q) && RingOk(q, h)
  {
    var b := Tail(q);
    assert b in q.blocks;
    && LocalFrontOk(b)
    && (p.WriteItem? || p.StoreTail? ==> Advance(b.tail, b.size) != b.localFront)
    && (p.StoreTail? ==> b.data[b.tail] == p.e)
    && (p.LoadNextFront? || p.WriteNextItem? || p.StoreNextTail? || p.StoreTailBlock? ==> h.tailAt + 1 < |h.ring|)
    && (p.WriteNextItem? || p.StoreNextTail? || p.StoreTailBlock? ==>
          Upcoming(q, h).localFront == Upcoming(q, h).front)
    && (p.StoreNextTail? ==> assert Upcoming(q, h) in q.blocks; Upcoming(q, h).data[Upcoming(q, h).tail] == p.e)
  }

  predicate ConsumerOk(q: Queue, c: Consumer, h: History)
    requires BlocksOk(q) && RingOk(q, h)
  {
    var b := Front(q);
    assert b in q.blocks;
    && LocalTailOk(b)
    && (c.ReloadTail? || c.LoadNext? || c.LoadNextTail? || c.StoreFrontBlock? ==> h.tailAt > 0)
    && (c.LoadTailBlock? && h.tailAt == 0 ==> h.emptySeen)
    && (c.LoadNext? || c.LoadNextTail? || c.StoreFrontBlock? ==> b.front == b.tail)
    && (c.LoadNextTail? || c.StoreFrontBlock? ==> c.nextBlock == h.ring[1])
    && (c.StoreFrontBlock? ==>
          var n := q.blocks[h.ring[1]];
          assert n in q.blocks;
          LocalTailOk(n) && n.front != n.localTail)
    && (c.ReadItem? ==>
          if c.block == q.frontBlock then b.front != b.localTail
          else c.op == Peek && h.tailAt > 0 && b.front == b.tail && c.block == h.ring[1])
    && (c.StoreFront? ==> b.front != b.localTail && c.v == b.data[b.front])
  }

  /** The blocks from the front block to the tail block. */
  function Segment(h: History): seq<nat>
    requires h.tailAt < |h.ring|
  {
    h.ring[..h.tailAt + 1]
  }

  function Contents(q: Queue, h: History): seq<int>
    requires BlocksOk(q) && RingOk(q, h)
  {
    NamedRing(q, h);
    Concat(q.blocks, Segment(h))
  }

  lemma NamedRing(q: Queue, h: History)
    requires BlocksOk(q) && RingOk(q, h)
    ensures Named(q.blocks, Segment(h))
  {
  }

  /** What has been dequeued, followed by what the queue holds, is what has been enqueued. */
  predicate ContentsOk(q: Queue, h: History)
    requires BlocksOk(q) && RingOk(q, h)
  {
    h.enqueued == h.dequeued + Contents(q, h)
  }

  predicate OutcomeOk(out: Outcome, h: History) {
    match out
    case Pending => true
    case Took(v) => |h.dequeued| > 0 && h.dequeued[|h.dequeued| - 1] == v
    case Peeked(v) => |h.dequeued| < |h.enqueued| && h.enqueued[|h.dequeued|] == v
    case SawEmpty => h.emptySeen
  }

  predicate Inv(s: State) {
    && BlocksOk(s.q) && RingOk(s.q, s.h) && s.q.largest >= 2
    && SegmentOk(s.q, s.p, s.h)
    && ProducerOk(s.q, s.p, s.h)
    && ConsumerOk(s.q, s.c, s.h)
    && ContentsOk(s.q, s.h)
    && OutcomeOk(s.out, s.h)
    && (s.c != Quiet ==> s.out == Pending)
  }

  lemma InvWellFormed(s: State)
    requires Inv(s)
    ensures WellFormed(s)
  {
  }

  // ---- changing one block ----

  lemma PutOk(q: Queue, id: nat, b: Block)
    requires BlocksOk(q) && id < |q.blocks| && BlockOk(b) && b.next == q.blocks[id].next
    ensures BlocksOk(Put(q, id, b))
  {
  }

  lemma PutRing(q: Queue, h: History, id: nat, b: Block)
    requires RingOk(q, h) && id < |q.blocks| && b.next == q.blocks[id].next
    ensures RingOk(Put(q, id, b), h)
  {
    forall k | 0 <= k < |h.ring| ensures RingNext(Put(q, id, b), h.ring, k) {
      assert RingNext(q, h.ring, k);
    }
  }

  /** A change that leaves the block's items and ends alone leaves the segment and the contents alone. */
  lemma PutSame(q: Queue, p: Producer, p': Producer, h: History, id: nat, b: Block)
    requires BlocksOk(q) && RingOk(q, h) && SegmentOk(q, p, h) && id < |q.blocks| && BlockOk(b)
    requires b.next == q.blocks[id].next && BlockOk(q.blocks[id]) && Items(b) == Items(q.blocks[id])
    requires p'.StoreTailBlock? == p.StoreTailBlock? && (p.StoreTailBlock? ==> p' == p)
    ensures BlocksOk(Put(q, id, b)) && RingOk(Put(q, id, b), h) && SegmentOk(Put(q, id, b), p', h)
    ensures Contents(Put(q, id, b), h) == Contents(q, h)
  {
    var q' := Put(q, id, b);
    PutOk(q, id, b);
    PutRing(q, h, id, b);
    SameEnds(b, q.blocks[id]);
    hide Items, BlockOk, LocalFrontOk, LocalTailOk, Dist, Concat;
    forall k | 0 <= k < |h.ring| ensures SegmentAt(q', p', h, k) {
      assert SegmentAt(q, p, h, k);
    }
    NamedRing(q, h);
    NamedRing(q', h);
    ConcatSame(q.blocks, q'.blocks, Segment(h));
  }

  lemma SameEnds(a: Block, b: Block)
    requires BlockOk(a) && BlockOk(b) && Items(a) == Items(b)
    ensures a.front == a.tail <==> b.front == b.tail
  {
  }

  lemma SegmentIgnores(q: Queue, p: Producer, p': Producer, h: History)
    requires BlocksOk(q) && RingOk(q, h) && SegmentOk(q, p, h)
    requires !p.StoreTailBlock? && !p'.StoreTailBlock?
    ensures SegmentOk(q, p', h)
  {
    forall k | 0 <= k < |h.ring| ensures SegmentAt(q, p', h, k) {
      assert SegmentAt(q, p, h, k);
    }
  }

  /** The producer's changes to a block leave the consumer's facts. */
  lemma PutConsumer(q: Queue, c: Consumer, h: History, id: nat, b: Block)
    requires BlocksOk(q) && RingOk(q, h) && ConsumerOk(q, c, h) && id < |q.blocks| && BlockOk(b)
    requires b.next == q.blocks[id].next && BlockOk(q.blocks[id])
    requires var a := q.blocks[id];
             && b.front == a.front && b.localTail == a.localTail && b.size == a.size
             && Dist(a.front, a.tail, a.size) <= Dist(b.front, b.tail, b.size)
             && (a.front != a.tail ==> b.data[b.front] == a.data[a.front])
             && (id == q.frontBlock && h.tailAt > 0 ==> b.tail == a.tail)
    ensures BlocksOk(Put(q, id, b)) && RingOk(Put(q, id, b), h) && ConsumerOk(Put(q, id, b), c, h)
  {
    PutOk(q, id, b);
    PutRing(q, h, id, b);
    LocalTailStays(q.blocks[id], b);
    hide LocalFrontOk, BlocksOk;
    assert h.tailAt > 0 ==> h.ring[1] != h.ring[0];
  }

  lemma LocalTailStays(a: Block, b: Block)
    requires BlockOk(a) && BlockOk(b) && b.front == a.front && b.localTail == a.localTail && b.size == a.size
    requires Dist(a.front, a.tail, a.size) <= Dist(b.front, b.tail, b.size)
    ensures LocalTailOk(a) ==> LocalTailOk(b)
    ensures a.front != a.localTail && LocalTailOk(a) ==> a.front != a.tail
  {
  }

  /** The consumer's changes to a block leave the producer's facts. */
  lemma PutProducer(q: Queue, p: Producer, h: History, id: nat, b: Block)
    requires BlocksOk(q) && RingOk(q, h) && ProducerOk(q, p, h) && id < |q.blocks| && BlockOk(b)
    requires b.next == q.blocks[id].next && BlockOk(q.blocks[id])
    requires var a := q.blocks[id];
             && b.tail == a.tail && b.localFront == a.localFront && b.size == a.size && b.data == a.data
             && (LocalFrontOk(a) ==> LocalFrontOk(b))
             && (h.tailAt + 1 < |h.ring| && id == h.ring[h.tailAt + 1] ==> b.front == a.front)
    ensures BlocksOk(Put(q, id, b)) && RingOk(Put(q, id, b), h) && ProducerOk(Put(q, id, b), p, h)
  {
    PutOk(q, id, b);
    PutRing(q, h, id, b);
    hide LocalFrontOk, BlockOk;
  }

  /** The upcoming block is the tail block's next, not the front block, and empty while the producer prepares to use it. */
  lemma UpcomingIs(q: Queue, p: Producer, h: History)
    requires BlocksOk(q) && RingOk(q, h) && SegmentOk(q, p, h)
    ensures Tail(q).next != q.frontBlock <==> h.tailAt + 1 < |h.ring|
    ensures h.tailAt + 1 < |h.ring| ==>
      && Tail(q).next == h.ring[h.tailAt + 1] && Upcoming(q, h) in q.blocks && Tail(q) in q.blocks
      && Tail(q).next != q.tailBlock
      && (!p.StoreTailBlock? ==> Upcoming(q, h).front == Upcoming(q, h).tail)
  {
    hide LocalFrontOk, LocalTailOk;
    assert RingNext(q, h.ring, h.tailAt);
    if h.tailAt + 1 < |h.ring| {
      assert SegmentAt(q, p, h, h.tailAt + 1);
      assert h.ring[0] != h.ring[h.tailAt + 1];
      assert !p.StoreTailBlock? ==> |Items(Upcoming(q, h))| == 0;
    }
  }

  // ---- the producer's steps ----

  lemma BeginEnqueueKeeps(s: State, e: int, alloc: bool)
    requires Inv(s) && s.p == Ready
    ensures Inv(BeginEnqueue(s, e, alloc))
  {
    hide BlockOk, Items, LocalFrontOk, LocalTailOk, Concat, ConsumerOk, SegmentAt, RingNext;
    InvWellFormed(s);
    SegmentIgnores(s.q, s.p, BeginEnqueue(s, e, alloc).p, s.h);
  }

  lemma LoadFrontKeeps(s: State, maxBlock: nat)
    requires Inv(s) && s.p.LoadFront?
    ensures Inv(ProducerStep(s, maxBlock))
  {
    var q, b := s.q, Tail(s.q);
    var s' := ProducerStep(s, maxBlock);
    assert b in q.blocks;
    var b' := b.(localFront := b.front);
    assert LocalFrontOk(b');
    hide LocalFrontOk, LocalTailOk, Concat, ConsumerOk, SegmentAt, RingNext, SegmentOk, RingOk, BlocksOk;
    PutSame(q, s.p, s'.p, s.h, q.tailBlock, b');
    PutConsumer(q, s.c, s.h, q.tailBlock, b');
  }

  lemma WriteItemKeeps(s: State, maxBlock: nat)
    requires Inv(s) && s.p.WriteItem?
    ensures Inv(ProducerStep(s, maxBlock))
  {
    var q, b := s.q, Tail(s.q);
    var s' := ProducerStep(s, maxBlock);
    assert b in q.blocks;
    var b' := b.(data := b.data[b.tail := s.p.e]);
    LocalFrontTest(b);
    ItemsWrite(b, s.p.e);
    assert LocalFrontOk(b');
    hide LocalFrontOk, LocalTailOk, Concat, ConsumerOk, SegmentAt, RingNext, SegmentOk, RingOk, BlocksOk, Items;
    PutSame(q, s.p, s'.p, s.h, q.tailBlock, b');
    PutConsumer(q, s.c, s.h, q.tailBlock, b');
  }

  /** Pushing to the tail block appends to the contents. */
  lemma PushContents(q: Queue, p: Producer, h: History, b: Block, e: int)
    requires BlocksOk(q) && RingOk(q, h) && SegmentOk(q, p, h) && !p.StoreTailBlock? && BlockOk(b)
    requires BlockOk(Tail(q)) && b.next == Tail(q).next && b.front != b.tail
    ensures BlocksOk(Put(q, q.tailBlock, b)) && RingOk(Put(q, q.tailBlock, b), h)
    ensures SegmentOk(Put(q, q.tailBlock, b), Ready, h)
    ensures Items(b) == Items(Tail(q)) + [e] ==> Contents(Put(q, q.tailBlock, b), h) == Contents(q, h) + [e]
  {
    hide Items, BlockOk, LocalFrontOk, LocalTailOk, Concat;
    var q' := Put(q, q.tailBlock, b);
    PutOk(q, q.tailBlock, b);
    PutRing(q, h, q.tailBlock, b);
    forall k | 0 <= k < |h.ring| ensures SegmentAt(q', Ready, h, k) {
      assert SegmentAt(q, p, h, k);
    }
    var before := h.ring[..h.tailAt];
    assert Segment(h) == before + [q.tailBlock];
    NamedRing(q, h);
    NamedRing(q', h);
    assert forall i :: i in before ==> i in Segment(h);
    ConcatLast(q.blocks, before, q.tailBlock);
    ConcatLast(q'.blocks, before, q.tailBlock);
    ConcatSame(q.blocks, q'.blocks, before);
  }

  lemma PushFacts(b: Block)
    requires BlockOk(b) && LocalFrontOk(b) && Advance(b.tail, b.size) != b.localFront
    ensures var b' := b.(tail := Advance(b.tail, b.size));
            && BlockOk(b') && b'.front != b'.tail && Items(b') == Items(b) + [b.data[b.tail]] && LocalFrontOk(b')
            && Dist(b.front, b.tail, b.size) <= Dist(b'.front, b'.tail, b'.size)
            && (b.front != b.tail ==> b'.data[b'.front] == b.data[b.front])
  {
  }

  lemma EndsOk(q: Queue)
    requires BlocksOk(q)
    ensures Tail(q) in q.blocks && Front(q) in q.blocks && BlockOk(Tail(q)) && BlockOk(Front(q))
  {
  }

  lemma StoreTailKeeps(s: State, maxBlock: nat)
    requires Inv(s) && s.p.StoreTail?
    ensures Inv(ProducerStep(s, maxBlock))
  {
    hide LocalFrontOk, LocalTailOk, Concat, ConsumerOk, SegmentAt, RingNext, SegmentOk, Items, BlocksOk, Contents, BlockOk, Dist;
    var q, b := s.q, Tail(s.q);
    EndsOk(q);
    InvWellFormed(s);
    var s' := ProducerStep(s, maxBlock);
    var b' := b.(tail := Advance(b.tail, b.size));
    PushFacts(b);
    PushContents(q, s.p, s.h, b', s.p.e);
    assert s.h.tailAt > 0 ==> s.h.ring[0] != s.h.ring[s.h.tailAt];
    PutConsumer(q, s.c, s.h, q.tailBlock, b');
    HistoryIrrelevant(s'.q, s.c, s.h, s'.h);
    ContentsIgnores(s'.q, s.h, s'.h);
    SegmentHistory(s'.q, s'.p, s.h, s'.h);
  }

  /** Of the history, the consumer's facts depend on the ring and emptySeen only. */
  lemma HistoryIrrelevant(q: Queue, c: Consumer, h: History, h': History)
    requires BlocksOk(q) && RingOk(q, h) && ConsumerOk(q, c, h)
    requires h'.ring == h.ring && h'.tailAt == h.tailAt && (h.emptySeen ==> h'.emptySeen || h.tailAt > 0 || !c.LoadTailBlock?)
    ensures RingOk(q, h') && ConsumerOk(q, c, h')
  {
  }

  lemma ContentsIgnores(q: Queue, h: History, h': History)
    requires BlocksOk(q) && RingOk(q, h) && RingOk(q, h') && h'.ring == h.ring && h'.tailAt == h.tailAt
    ensures Contents(q, h) == Contents(q, h')
  {
  }

  lemma SegmentHistory(q: Queue, p: Producer, h: History, h': History)
    requires BlocksOk(q) && RingOk(q, h) && RingOk(q, h') && h'.ring == h.ring && h'.tailAt == h.tailAt && SegmentOk(q, p, h)
    ensures SegmentOk(q, p, h')
  {
    forall k | 0 <= k < |h'.ring| ensures SegmentAt(q, p, h', k) {
      assert SegmentAt(q, p, h, k);
    }
  }

  lemma CheckNextKeeps(s: State, maxBlock: nat)
    requires Inv(s) && s.p.CheckNext?
    ensures Inv(ProducerStep(s, maxBlock))
  {
    InvWellFormed(s);
    var s' := ProducerStep(s, maxBlock);
    UpcomingIs(s.q, s.p, s.h);
    hide BlockOk, Items, LocalFrontOk, LocalTailOk, Concat, ConsumerOk, SegmentAt, RingNext, SegmentOk, RingOk, ContentsOk;
    SegmentIgnores(s.q, s.p, s'.p, s.h);
  }

  /** The code's assertion: the block after the tail block, when it is not the front block, is empty. */
  lemma NextBlockEmpty(s: State)
    requires Inv(s) && s.p.LoadNextFront?
    ensures var q := s.q; Tail(q).next < |q.blocks| && q.blocks[Tail(q).next].front == q.blocks[Tail(q).next].tail
  {
    UpcomingIs(s.q, s.p, s.h);
  }

  /** The upcoming block is neither the front block nor the next one the consumer knows of. */
  lemma UpcomingApart(q: Queue, h: History)
    requires BlocksOk(q) && RingOk(q, h) && h.tailAt + 1 < |h.ring|
    ensures h.ring[h.tailAt + 1] != q.frontBlock && h.ring[h.tailAt + 1] != q.tailBlock
    ensures h.tailAt > 0 ==> h.ring[h.tailAt + 1] != h.ring[1]
  {
  }

  /** The producer's facts after a change to the upcoming block alone. */
  lemma PutUpcoming(q: Queue, p: Producer, p': Producer, h: History, b: Block)
    requires BlocksOk(q) && RingOk(q, h) && ProducerOk(q, p, h) && h.tailAt + 1 < |h.ring| && BlockOk(b)
    requires b.next == Upcoming(q, h).next && b.localFront == b.front
    requires p'.WriteNextItem? || (p'.StoreNextTail? && b.data[b.tail] == p'.e) || p'.StoreTailBlock?
    ensures var q' := Put(q, h.ring[h.tailAt + 1], b); BlocksOk(q') && RingOk(q', h) && ProducerOk(q', p', h)
  {
    var id := h.ring[h.tailAt + 1];
    PutOk(q, id, b);
    PutRing(q, h, id, b);
    UpcomingApart(q, h);
    hide LocalFrontOk, BlockOk;
  }

  lemma LoadNextFrontKeeps(s: State, maxBlock: nat)
    requires Inv(s) && s.p.LoadNextFront?
    ensures Inv(ProducerStep(s, maxBlock))
  {
    InvWellFormed(s);
    var q := s.q;
    UpcomingIs(q, s.p, s.h);
    UpcomingApart(q, s.h);
    var n := Upcoming(q, s.h);
    var n' := n.(localFront := n.front);
    var s' := ProducerStep(s, maxBlock);
    hide LocalFrontOk, LocalTailOk, Concat, ConsumerOk, SegmentAt, RingNext, SegmentOk, RingOk, ProducerOk, Contents;
    PutSame(q, s.p, s'.p, s.h, Tail(q).next, n');
    PutConsumer(q, s.c, s.h, Tail(q).next, n');
    PutUpcoming(q, s.p, s'.p, s.h, n');
  }

  lemma WriteNextItemKeeps(s: State, maxBlock: nat)
    requires Inv(s) && s.p.WriteNextItem?
    ensures Inv(ProducerStep(s, maxBlock))
  {
    InvWellFormed(s);
    var q := s.q;
    UpcomingIs(q, s.p, s.h);
    UpcomingApart(q, s.h);
    var n := Upcoming(q, s.h);
    var n' := n.(data := n.data[n.tail := s.p.e]);
    ItemsWrite(n, s.p.e);
    var s' := ProducerStep(s, maxBlock);
    assert n.localFront == n.front;
    hide LocalFrontOk, LocalTailOk, Concat, ConsumerOk, SegmentAt, RingNext, SegmentOk, RingOk, ProducerOk, Contents, Items;
    PutSame(q, s.p, s'.p, s.h, Tail(q).next, n');
    PutConsumer(q, s.c, s.h, Tail(q).next, n');
    PutUpcoming(q, s.p, s'.p, s.h, n');
  }

  /** Filling the upcoming block changes nothing the consumer can reach. */
  lemma FillUpcoming(q: Queue, p: Producer, e: int, h: History, b: Block)
    requires BlocksOk(q) && RingOk(q, h) && SegmentOk(q, p, h) && h.tailAt + 1 < |h.ring| && BlockOk(b)
    requires b.next == Upcoming(q, h).next && Items(b) == [e] && !p.StoreTailBlock?
    ensures var q' := Put(q, h.ring[h.tailAt + 1], b);
            && BlocksOk(q') && RingOk(q', h) && SegmentOk(q', StoreTailBlock(e), h)
            && Contents(q', h) == Contents(q, h)
  {
    hide Items, BlockOk, LocalFrontOk, LocalTailOk, Concat;
    var id := h.ring[h.tailAt + 1];
    var q' := Put(q, id, b);
    PutOk(q, id, b);
    PutRing(q, h, id, b);
    forall k | 0 <= k < |h.ring| ensures SegmentAt(q', StoreTailBlock(e), h, k) {
      assert SegmentAt(q, p, h, k);
    }
    NamedRing(q, h);
    NamedRing(q', h);
    ConcatSame(q.blocks, q'.blocks, Segment(h));
  }

  lemma StoreNextTailKeeps(s: State, maxBlock: nat)
    requires Inv(s) && s.p.StoreNextTail?
    ensures Inv(ProducerStep(s, maxBlock))
  {
    InvWellFormed(s);
    var q := s.q;
    UpcomingIs(q, s.p, s.h);
    UpcomingApart(q, s.h);
    var n := Upcoming(q, s.h);
    var n' := n.(tail := Advance(n.tail, n.size));
    ItemsPush(n);
    assert Items(n) == [];
    var s' := ProducerStep(s, maxBlock);
    assert n.localFront == n.front && n.data[n.tail] == s.p.e;
    hide LocalFrontOk, LocalTailOk, Concat, ConsumerOk, SegmentAt, RingNext, SegmentOk, RingOk, ProducerOk, Contents, Items;
    FillUpcoming(q, s.p, s.p.e, s.h, n');
    PutConsumer(q, s.c, s.h, Tail(q).next, n');
    PutUpcoming(q, s.p, s'.p, s.h, n');
  }

  /** Moving the tail block pointer puts the upcoming block's element at the end of the contents. */
  lemma AdvanceTail(q: Queue, p: Producer, h: History, q': Queue, h': History)
    requires BlocksOk(q) && RingOk(q, h) && SegmentOk(q, p, h) && h.tailAt + 1 < |h.ring| && p.StoreTailBlock?
    requires q' == q.(tailBlock := h.ring[h.tailAt + 1]) && h'.ring == h.ring && h'.tailAt == h.tailAt + 1
    ensures BlocksOk(q') && RingOk(q', h') && SegmentOk(q', Ready, h')
    ensures Contents(q', h') == Contents(q, h) + [p.e]
  {
    hide LocalFrontOk, LocalTailOk, Items;
    forall k | 0 <= k < |h'.ring| ensures RingNext(q', h'.ring, k) {
      assert RingNext(q, h.ring, k);
    }
    forall k | 0 <= k < |h'.ring| ensures SegmentAt(q', Ready, h', k) {
      assert SegmentAt(q, p, h, k);
      assert k == h.tailAt + 1 ==> |Items(Upcoming(q, h))| == 1;
    }
    assert SegmentAt(q, p, h, h.tailAt + 1);
    assert Segment(h') == Segment(h) + [h.ring[h.tailAt + 1]];
    NamedRing(q, h);
    NamedRing(q', h');
    ConcatLast(q.blocks, Segment(h), h.ring[h.tailAt + 1]);
  }

  lemma StoreTailBlockKeeps(s: State, maxBlock: nat)
    requires Inv(s) && s.p.StoreTailBlock?
    ensures Inv(ProducerStep(s, maxBlock))
  {
    hide LocalFrontOk, LocalTailOk, Concat, SegmentAt, RingNext, Items, BlockOk, SegmentOk, Contents, Dist, BlocksOk;
    InvWellFormed(s);
    var q, h := s.q, s.h;
    var s' := ProducerStep(s, maxBlock);
    UpcomingIs(q, s.p, h);
    UpcomingRoom(q, s.p, h);
    AdvanceTail(q, s.p, h, s'.q, s'.h);
    UpcomingApart(q, h);
  }

  lemma UpcomingRoom(q: Queue, p: Producer, h: History)
    requires BlocksOk(q) && RingOk(q, h) && h.tailAt + 1 < |h.ring|
    requires Upcoming(q, h).localFront == Upcoming(q, h).front
    ensures Upcoming(q, h) in q.blocks && LocalFrontOk(Upcoming(q, h))
  {
  }

  /** q' and h' are q and h with a block linked in behind the tail block. */
  predicate Linked(q: Queue, h: History, q': Queue, h': History, size: nat, e: int)
    requires BlocksOk(q) && RingOk(q, h)
  {
    var b := Tail(q);
    && size >= 2
    && q' == q.(blocks := q.blocks[q.tailBlock := b.(next := |q.blocks|)] + [NewBlock(size, e, b.next)], largest := size)
    && h' == h.(ring := h.ring[..h.tailAt + 1] + [|q.blocks|] + h.ring[h.tailAt + 1..])
  }

  lemma LinkBlocks(q: Queue, h: History, q': Queue, h': History, size: nat, e: int)
    requires BlocksOk(q) && RingOk(q, h) && Linked(q, h, q', h', size, e)
    ensures BlocksOk(q')
    ensures forall i :: 0 <= i < |q.blocks| && i != q.tailBlock ==> q'.blocks[i] == q.blocks[i]
  {
  }

  /** Places after the tail block's move up by one. */
  function Before(k: nat, tailAt: nat): nat {
    if k <= tailAt || k == 0 then k else k - 1
  }

  lemma LinkPlace(q: Queue, h: History, q': Queue, h': History, size: nat, e: int, k: nat)
    requires BlocksOk(q) && RingOk(q, h) && Linked(q, h, q', h', size, e) && k <= |h.ring|
    ensures |h'.ring| == |h.ring| + 1
    ensures h'.ring[k] == (if k == h.tailAt + 1 then |q.blocks| else h.ring[Before(k, h.tailAt)])
  {
  }

  lemma LinkRing(q: Queue, h: History, q': Queue, h': History, size: nat, e: int)
    requires BlocksOk(q) && RingOk(q, h) && Linked(q, h, q', h', size, e)
    ensures RingOk(q', h') && |h'.ring| == |h.ring| + 1
  {
    hide BlocksOk, BlockOk, RingNext;
    LinkPlace(q, h, q', h', size, e, 0);
    LinkPlace(q, h, q', h', size, e, h.tailAt);
    forall k | 0 <= k < |h'.ring| ensures RingNext(q', h'.ring, k) && h'.ring[k] < |q'.blocks| {
      LinkNext(q, h, q', h', size, e, k);
      LinkPlace(q, h, q', h', size, e, k);
    }
    forall j, k | 0 <= j < k < |h'.ring| ensures h'.ring[j] != h'.ring[k] {
      LinkPlace(q, h, q', h', size, e, j);
      LinkPlace(q, h, q', h', size, e, k);
    }
  }

  lemma LinkNext(q: Queue, h: History, q': Queue, h': History, size: nat, e: int, k: nat)
    requires BlocksOk(q) && RingOk(q, h) && Linked(q, h, q', h', size, e) && k <= |h.ring|
    ensures k < |h'.ring| && RingNext(q', h'.ring, k)
  {
    LinkPlace(q, h, q', h', size, e, k);
    LinkPlace(q, h, q', h', size, e, if k == |h.ring| then 0 else k + 1);
    LinkNexts(q, h, q', h', size, e);
    hide Linked, BlocksOk, BlockOk;
    assert RingNext(q, h.ring, h.tailAt);
    assert RingNext(q, h.ring, Before(k, h.tailAt));
  }

  lemma LinkNexts(q: Queue, h: History, q': Queue, h': History, size: nat, e: int)
    requires BlocksOk(q) && RingOk(q, h) && Linked(q, h, q', h', size, e)
    ensures |q'.blocks| == |q.blocks| + 1 && q'.blocks[q.tailBlock].next == |q.blocks|
    ensures q'.blocks[|q.blocks|].next == Tail(q).next
    ensures forall i :: 0 <= i < |q.blocks| && i != q.tailBlock ==> q'.blocks[i].next == q.blocks[i].next
  {
  }

  lemma LinkSegment(q: Queue, p: Producer, h: History, q': Queue, h': History, size: nat, e: int)
    requires BlocksOk(q) && RingOk(q, h) && SegmentOk(q, p, h) && p.LinkBlock?
    requires Linked(q, h, q', h', size, e) && BlocksOk(q') && RingOk(q', h')
    ensures SegmentOk(q', StoreTailBlock(e), h')
    ensures Contents(q', h') == Contents(q, h)
  {
    LinkBlocks(q, h, q', h', size, e);
    assert Items(NewBlock(size, e, Tail(q).next)) == [e];
    hide RingOk, BlocksOk, Concat;
    forall k | 0 <= k < |h'.ring| ensures SegmentAt(q', StoreTailBlock(e), h', k) {
      LinkPlace(q, h, q', h', size, e, k);
      assert SegmentAt(q, p, h, if k == h.tailAt + 1 then 0 else Before(k, h.tailAt));
    }
    assert Segment(h') == Segment(h);
    NamedRing(q, h);
    NamedRing(q', h');
    ConcatSame(q.blocks, q'.blocks, Segment(h));
  }

  lemma LinkThreads(q: Queue, p: Producer, c: Consumer, h: History, q': Queue, h': History, size: nat, e: int)
    requires BlocksOk(q) && RingOk(q, h) && Linked(q, h, q', h', size, e) && BlocksOk(q') && RingOk(q', h')
    requires ProducerOk(q, p, h) && ConsumerOk(q, c, h)
    ensures ProducerOk(q', StoreTailBlock(e), h') && ConsumerOk(q', c, h')
  {
  }

  lemma LinkBlockKeeps(s: State, maxBlock: nat)
    requires Inv(s) && s.p.LinkBlock?
    ensures Inv(ProducerStep(s, maxBlock))
  {
    hide Concat, SegmentAt, RingNext, Items, SegmentOk, Contents, ProducerOk, ConsumerOk, BlockOk;
    InvWellFormed(s);
    var q, h, e := s.q, s.h, s.p.e;
    var s' := ProducerStep(s, maxBlock);
    var size := s'.q.largest;
    LinkBlocks(q, h, s'.q, s'.h, size, e);
    LinkRing(q, h, s'.q, s'.h, size, e);
    LinkSegment(q, s.p, h, s'.q, s'.h, size, e);
    LinkThreads(q, s.p, s.c, h, s'.q, s'.h, size, e);
  }

  // ---- the consumer's steps ----

  /** Refreshing a localTail changes no one else's facts. */
  lemma PutLocalTail(q: Queue, p: Producer, h: History, id: nat)
    requires BlocksOk(q) && RingOk(q, h) && SegmentOk(q, p, h) && ProducerOk(q, p, h) && id < |q.blocks|
    ensures var b := q.blocks[id];
            var q' := Put(q, id, b.(localTail := b.tail));
            && BlocksOk(q') && RingOk(q', h) && SegmentOk(q', p, h) && ProducerOk(q', p, h)
            && Contents(q', h) == Contents(q, h)
            && b in q.blocks && LocalTailOk(b.(localTail := b.tail))
  {
    var b := q.blocks[id];
    assert b in q.blocks;
    var b' := b.(localTail := b.tail);
    assert Items(b') == Items(b);
    assert LocalFrontOk(b) ==> LocalFrontOk(b');
    assert LocalTailOk(b');
    hide Items, LocalFrontOk, LocalTailOk, Concat, SegmentOk, ProducerOk, Contents, RingOk;
    PutSame(q, p, p, h, id, b');
    PutProducer(q, p, h, id, b');
  }

  lemma BeginConsumeKeeps(s: State, op: Op)
    requires Inv(s) && s.c == Quiet
    ensures Inv(BeginConsume(s, op))
  {
    InvWellFormed(s);
    var s' := BeginConsume(s, op);
    SameHistory(s.q, s.p, s.h, s'.h);
    hide Items, LocalFrontOk, LocalTailOk, Concat, SegmentOk, SegmentAt, ProducerOk, Contents, RingOk;
  }

  /** The ring facts, the segment, the producer's facts and the contents only read the history's ring and place. */
  lemma SameHistory(q: Queue, p: Producer, h: History, h': History)
    requires BlocksOk(q) && RingOk(q, h) && SegmentOk(q, p, h) && ProducerOk(q, p, h)
    requires h'.ring == h.ring && h'.tailAt == h.tailAt
    ensures RingOk(q, h') && SegmentOk(q, p, h') && ProducerOk(q, p, h') && Contents(q, h') == Contents(q, h)
  {
    hide LocalFrontOk, LocalTailOk, Items, BlockOk;
    SegmentHistory(q, p, h, h');
  }

  /** The contents are the front block's items and then those of the blocks after it. */
  lemma ContentsSplit(q: Queue, h: History)
    requires BlocksOk(q) && RingOk(q, h)
    ensures Front(q) in q.blocks && Named(q.blocks, h.ring[1..h.tailAt + 1])
    ensures Contents(q, h) == Items(Front(q)) + Concat(q.blocks, h.ring[1..h.tailAt + 1])
    ensures h.tailAt == 0 ==> Concat(q.blocks, h.ring[1..h.tailAt + 1]) == []
  {
  }

  /** An empty front block that is also the tail block: the queue is empty. */
  lemma EmptyQueue(q: Queue, h: History)
    requires BlocksOk(q) && RingOk(q, h) && h.tailAt == 0 && Front(q).front == Front(q).tail
    ensures Contents(q, h) == []
  {
    ContentsSplit(q, h);
    hide Concat, RingNext;
  }

  lemma LoadTailKeeps(s: State)
    requires Inv(s) && s.c.LoadTail?
    ensures Inv(ConsumerStep(s))
  {
    InvWellFormed(s);
    var q, h := s.q, s.h;
    var s' := ConsumerStep(s);
    PutLocalTail(q, s.p, h, q.frontBlock);
    SameHistory(s'.q, s.p, h, s'.h);
    if h.tailAt == 0 && Front(q).front == Front(q).tail {
      EmptyQueue(q, h);
    }
    hide Items, LocalFrontOk, LocalTailOk, Concat, SegmentOk, SegmentAt, ProducerOk, Contents;
    assert h.ring[0] == q.frontBlock;
    assert ConsumerOk(s'.q, s'.c, s'.h);
  }

  lemma LoadTailBlockKeeps(s: State)
    requires Inv(s) && s.c.LoadTailBlock?
    ensures Inv(ConsumerStep(s))
  {
  }

  lemma ReloadTailKeeps(s: State)
    requires Inv(s) && s.c.ReloadTail?
    ensures Inv(ConsumerStep(s))
  {
    InvWellFormed(s);
    var s' := ConsumerStep(s);
    PutLocalTail(s.q, s.p, s.h, s.q.frontBlock);
    hide Items, LocalFrontOk, LocalTailOk, Concat, SegmentOk, SegmentAt, ProducerOk, Contents, RingOk;
    assert ConsumerOk(s'.q, s'.c, s'.h);
  }

  lemma LoadNextKeeps(s: State)
    requires Inv(s) && s.c.LoadNext?
    ensures Inv(ConsumerStep(s))
  {
    InvWellFormed(s);
    hide Items, LocalFrontOk, LocalTailOk, Concat, SegmentOk, SegmentAt, ProducerOk, Contents;
    assert RingNext(s.q, s.h.ring, 0);
  }

  /** The code's assertion: when the consumer moves on, the next block holds an element. */
  lemma NextBlockNonEmpty(s: State)
    requires Inv(s) && s.c.LoadNextTail?
    ensures s.c.nextBlock < |s.q.blocks| && s.q.blocks[s.c.nextBlock].front != s.q.blocks[s.c.nextBlock].tail
  {
    assert SegmentAt(s.q, s.p, s.h, 1);
  }

  lemma LoadNextTailKeeps(s: State)
    requires Inv(s) && s.c.LoadNextTail?
    ensures Inv(ConsumerStep(s))
  {
    InvWellFormed(s);
    NextBlockNonEmpty(s);
    var s' := ConsumerStep(s);
    assert s.h.ring[0] != s.h.ring[1];
    if s.c.op != Peek {
      PutLocalTail(s.q, s.p, s.h, s.c.nextBlock);
    }
    hide Items, LocalFrontOk, LocalTailOk, Concat, SegmentOk, SegmentAt, ProducerOk, Contents, RingOk;
    assert ConsumerOk(s'.q, s'.c, s'.h);
  }

  /** Leaving an empty front block turns the ring by one. */
  predicate Turned(q: Queue, h: History, q': Queue, h': History)
    requires BlocksOk(q) && RingOk(q, h)
  {
    && h.tailAt > 0 && Front(q).front == Front(q).tail
    && q' == q.(frontBlock := h.ring[1])
    && h' == h.(ring := h.ring[1..] + [h.ring[0]], tailAt := h.tailAt - 1)
  }

  lemma TurnRing(q: Queue, h: History, q': Queue, h': History)
    requires BlocksOk(q) && RingOk(q, h) && Turned(q, h, q', h')
    ensures BlocksOk(q') && RingOk(q', h') && |h'.ring| == |h.ring|
    ensures forall k :: 0 <= k < |h.ring| ==> h'.ring[k] == h.ring[if k + 1 == |h.ring| then 0 else k + 1]
  {
    hide BlockOk;
    assert forall k :: 0 <= k < |h.ring| ==> h'.ring[k] == h.ring[if k + 1 == |h.ring| then 0 else k + 1];
    forall k | 0 <= k < |h'.ring| ensures RingNext(q', h'.ring, k) {
      assert RingNext(q, h.ring, if k + 1 == |h.ring| then 0 else k + 1);
    }
  }

  lemma TurnSegment(q: Queue, p: Producer, h: History, q': Queue, h': History)
    requires BlocksOk(q) && RingOk(q, h) && SegmentOk(q, p, h) && Turned(q, h, q', h')
    requires BlocksOk(q') && RingOk(q', h') && (p.StoreTailBlock? ==> h.tailAt + 1 < |h.ring|)
    ensures SegmentOk(q', p, h') && Contents(q', h') == Contents(q, h)
  {
    TurnRing(q, h, q', h');
    assert Front(q) in q.blocks;
    assert Items(Front(q)) == [];
    hide RingOk, BlocksOk, LocalFrontOk, LocalTailOk, Items;
    forall k | 0 <= k < |h'.ring| ensures SegmentAt(q', p, h', k) {
      var was := if k + 1 == |h.ring| then 0 else k + 1;
      assert SegmentAt(q, p, h, was);
    }
    assert Segment(h')  == Segment(h)[1..];
    NamedRing(q, h);
    NamedRing(q', h');
  }

  lemma StoreFrontBlockKeeps(s: State)
    requires Inv(s) && s.c.StoreFrontBlock?
    ensures Inv(ConsumerStep(s))
  {
    InvWellFormed(s);
    var s' := ConsumerStep(s);
    TurnRing(s.q, s.h, s'.q, s'.h);
    TurnSegment(s.q, s.p, s.h, s'.q, s'.h);
    hide Items, LocalFrontOk, LocalTailOk, Concat, SegmentOk, SegmentAt, Contents, RingNext, BlockOk;
    assert s.h.tailAt + 1 < |s.h.ring| ==> Upcoming(s'.q, s'.h) == Upcoming(s.q, s.h);
  }

  /** The next element to be dequeued is the front block's first, or the next block's when the front block is empty. */
  lemma FirstOfContents(q: Queue, p: Producer, h: History)
    requires BlocksOk(q) && RingOk(q, h) && SegmentOk(q, p, h)
    ensures Front(q) in q.blocks
    ensures Front(q).front != Front(q).tail ==>
      Contents(q, h) != [] && Contents(q, h)[0] == Front(q).data[Front(q).front]
    ensures Front(q).front == Front(q).tail && h.tailAt > 0 ==>
      var n := q.blocks[h.ring[1]];
      n in q.blocks && Contents(q, h) != [] && Contents(q, h)[0] == n.data[n.front]
  {
    hide LocalFrontOk, LocalTailOk, RingNext, Contents;
    ContentsSplit(q, h);
    FirstItem(Front(q));
    if Front(q).front == Front(q).tail && h.tailAt > 0 {
      assert SegmentAt(q, p, h, 1);
      var n := q.blocks[h.ring[1]];
      assert n in q.blocks && h.ring[1..h.tailAt + 1][0] == h.ring[1];
      FirstItem(n);
    }
  }

  lemma FirstItem(b: Block)
    requires BlockOk(b)
    ensures if b.front == b.tail then Items(b) == [] else Items(b) != [] && Items(b)[0] == b.data[b.front]
  {
  }

  lemma ReadItemKeeps(s: State)
    requires Inv(s) && s.c.ReadItem?
    ensures Inv(ConsumerStep(s))
  {
    InvWellFormed(s);
    FirstOfContents(s.q, s.p, s.h);
    assert Front(s.q).front != Front(s.q).localTail ==> Front(s.q).front != Front(s.q).tail;
    hide Items, LocalFrontOk, LocalTailOk, Concat, SegmentOk, SegmentAt, RingNext, BlockOk, ProducerOk, Contents;
  }

  lemma PopContents(q: Queue, p: Producer, h: History)
    requires BlocksOk(q) && RingOk(q, h) && SegmentOk(q, p, h) && Front(q).front != Front(q).tail
    ensures Front(q) in q.blocks
    ensures var b := Front(q);
            var q' := Put(q, q.frontBlock, b.(front := Advance(b.front, b.size)));
            && BlocksOk(q') && RingOk(q', h) && SegmentOk(q', p, h)
            && Contents(q, h) == [b.data[b.front]] + Contents(q', h)
  {
    var b := Front(q);
    assert b in q.blocks;
    var b' := b.(front := Advance(b.front, b.size));
    ItemsPop(b);
    hide Items, LocalFrontOk, LocalTailOk;
    var q' := Put(q, q.frontBlock, b');
    PutOk(q, q.frontBlock, b');
    PutRing(q, h, q.frontBlock, b');
    forall k | 0 <= k < |h.ring| ensures SegmentAt(q', p, h, k) {
      assert SegmentAt(q, p, h, k);
    }
    PopRest(q, h, b', b.data[b.front]);
  }

  lemma PopRest(q: Queue, h: History, b': Block, v: int)
    requires BlocksOk(q) && RingOk(q, h) && BlockOk(b') && b'.next == Front(q).next
    ensures Front(q) in q.blocks && BlocksOk(Put(q, q.frontBlock, b')) && RingOk(Put(q, q.frontBlock, b'), h)
    ensures Items(Front(q)) == [v] + Items(b') ==> Contents(q, h) == [v] + Contents(Put(q, q.frontBlock, b'), h)
  {
    hide Items, RingNext, BlockOk, RingOk, BlocksOk, Contents, Concat;
    RestApart(q, h);
    var q' := Put(q, q.frontBlock, b');
    PutOk(q, q.frontBlock, b');
    PutRing(q, h, q.frontBlock, b');
    ContentsSplit(q, h);
    ContentsSplit(q', h);
    ConcatSame(q.blocks, q'.blocks, h.ring[1..h.tailAt + 1]);
  }

  lemma RestApart(q: Queue, h: History)
    requires RingOk(q, h)
    ensures q.frontBlock < |q.blocks| && h.tailAt + 1 <= |h.ring| && q.frontBlock !in h.ring[1..h.tailAt + 1]
  {
  }

  lemma PopFacts(b: Block)
    requires BlockOk(b) && LocalTailOk(b) && b.front != b.localTail
    ensures var b' := b.(front := Advance(b.front, b.size));
            BlockOk(b') && b.front != b.tail && LocalTailOk(b') && (LocalFrontOk(b) ==> LocalFrontOk(b'))
  {
  }

  lemma StoreFrontKeeps(s: State)
    requires Inv(s) && s.c.StoreFront?
    ensures Inv(ConsumerStep(s))
  {
    hide Items, LocalFrontOk, LocalTailOk, Concat, SegmentOk, SegmentAt, Contents, BlockOk, BlocksOk, ProducerOk, RingNext, Dist;
    InvWellFormed(s);
    var q, h := s.q, s.h;
    var b := Front(q);
    EndsOk(q);
    var b' := b.(front := Advance(b.front, b.size));
    var s' := ConsumerStep(s);
    PopFacts(b);
    PopContents(q, s.p, h);
    assert h.tailAt + 1 < |h.ring| ==> q.frontBlock != h.ring[h.tailAt + 1];
    PutProducer(q, s.p, h, q.frontBlock, b');
    SameHistory(s'.q, s.p, h, s'.h);
  }

  // ---- runs ----

  lemma StepKeeps(s: State, m: Move, maxBlock: nat)
    requires Inv(s)
    ensures WellFormed(s) && Inv(Step(s, m, maxBlock))
  {
    hide Inv, ProducerStep, ConsumerStep, BeginEnqueue, BeginConsume;
    InvWellFormed(s);
    match m {
      case Enqueue(e, alloc) => if s.p == Ready { BeginEnqueueKeeps(s, e, alloc); }
      case Produce => ProduceKeeps(s, maxBlock);
      case Call(op) => if s.c == Quiet { BeginConsumeKeeps(s, op); }
      case Consume => ConsumeKeeps(s);
    }
  }

  lemma ProduceKeeps(s: State, maxBlock: nat)
    requires Inv(s) && WellFormed(s)
    ensures Inv(ProducerStep(s, maxBlock))
  {
    hide Inv, WellFormed;
    match s.p {
      case Ready =>
      case LoadFront(_, _) => LoadFrontKeeps(s, maxBlock);
      case WriteItem(_) => WriteItemKeeps(s, maxBlock);
      case StoreTail(_) => StoreTailKeeps(s, maxBlock);
      case CheckNext(_, _) => CheckNextKeeps(s, maxBlock);
      case LoadNextFront(_) => LoadNextFrontKeeps(s, maxBlock);
      case WriteNextItem(_) => WriteNextItemKeeps(s, maxBlock);
      case StoreNextTail(_) => StoreNextTailKeeps(s, maxBlock);
      case LinkBlock(_) => LinkBlockKeeps(s, maxBlock);
      case StoreTailBlock(_) => StoreTailBlockKeeps(s, maxBlock);
    }
  }

  lemma ConsumeKeeps(s: State)
    requires Inv(s) && WellFormed(s)
    ensures Inv(ConsumerStep(s))
  {
    hide Inv, WellFormed;
    match s.c {
      case Quiet =>
      case LoadTail(_) => LoadTailKeeps(s);
      case LoadTailBlock(_) => LoadTailBlockKeeps(s);
      case ReloadTail(_) => ReloadTailKeeps(s);
      case LoadNext(_) => LoadNextKeeps(s);
      case LoadNextTail(_, _) => LoadNextTailKeeps(s);
      case StoreFrontBlock(_) => StoreFrontBlockKeeps(s);
      case ReadItem(_, _) => ReadItemKeeps(s);
      case StoreFront(_) => StoreFrontKeeps(s);
    }
  }

  /** Any interleaving of the two threads' steps. */
  function After(s: State, ms: seq<Move>, maxBlock: nat): (r: State)
    requires Inv(s)
    ensures Inv(r)
    decreases |ms|
  {
    if ms == [] then s
    else
      StepKeeps(s, ms[0], maxBlock);
      After(Step(s, ms[0], maxBlock), ms[1..], maxBlock)
  }

  /** A new queue: no element, all blocks in one ring in allocation order. */
  function Begin(q: Queue): State {
    State(q, Ready, Quiet, Pending, History(seq(|q.blocks|, i => i), 0, [], [], false))
  }

  predicate NewQueue(q: Queue) {
    && |q.blocks| >= 1 && q.frontBlock == 0 && q.tailBlock == 0 && q.largest >= 2
    && forall i :: 0 <= i < |q.blocks| ==>
         && q.blocks[i] == EmptyBlock(q.largest, if i + 1 == |q.blocks| then 0 else i + 1)
  }

  function EmptyBlock(size: nat, next: nat): Block {
    Block(0, 0, 0, 0, size, seq(size, _ => 0), next)
  }

  lemma NewQueueOk(q: Queue)
    requires NewQueue(q)
    ensures Inv(Begin(q))
  {
    var h := Begin(q).h;
    forall k | 0 <= k < |h.ring| ensures RingNext(q, h.ring, k) {
      assert h.ring[k] == k;
    }
    assert BlocksOk(q);
    assert RingOk(q, h);
    forall k | 0 <= k < |h.ring| ensures SegmentAt(q, Ready, h, k) {
      assert h.ring[k] == k && q.blocks[k] in q.blocks;
    }
    assert q.blocks[0] in q.blocks;
    EmptyQueue(q, h);
  }

  /**
   * A linearizable FIFO: under every interleaving the dequeued sequence is a prefix of the enqueued one; what is
   * between them is what the blocks from the front block to the tail block hold; a successful call returned the next
   * element, and a failed one found the queue empty at some instant of the call.
   */
  lemma Fifo(q: Queue, ms: seq<Move>, maxBlock: nat)
    requires NewQueue(q)
    ensures Inv(Begin(q))
    ensures var s := After(Begin(q), ms, maxBlock);
            && s.h.enqueued == s.h.dequeued + Contents(s.q, s.h)
            && (s.out.Took? ==> |s.h.dequeued| > 0 && s.out.v == s.h.dequeued[|s.h.dequeued| - 1])
            && (s.out.Peeked? ==> |s.h.dequeued| < |s.h.enqueued| && s.out.v == s.h.enqueued[|s.h.dequeued|])
            && (s.out.SawEmpty? ==> s.h.emptySeen)
  {
    NewQueueOk(q);
    hide After, Contents;
  }

  /** Blocks outside the front-to-tail segment are empty, inside it only the front block may be. */
  lemma OutsideEmpty(q: Queue, ms: seq<Move>, maxBlock: nat, k: nat)
    requires NewQueue(q)
    ensures Inv(Begin(q))
    ensures var s := After(Begin(q), ms, maxBlock);
            k < |s.h.ring| ==>
              var b := s.q.blocks[s.h.ring[k]];
              && (0 < k <= s.h.tailAt ==> b.front != b.tail)
              && (k > s.h.tailAt ==> b.front == b.tail || (s.p.StoreTailBlock? && k == s.h.tailAt + 1))
  {
    NewQueueOk(q);
    var s := After(Begin(q), ms, maxBlock);
    hide After;
    if k < |s.h.ring| {
      assert SegmentAt(s.q, s.p, s.h, k);
      var b := s.q.blocks[s.h.ring[k]];
      assert b in s.q.blocks;
      FirstItem(b);
    }
  }

  /** The code's two assertions hold in every reachable state, also after a block has been inserted. */
  lemma AssertionsHold(q: Queue, ms: seq<Move>, maxBlock: nat)
    requires NewQueue(q)
    ensures Inv(Begin(q))
    ensures var s := After(Begin(q), ms, maxBlock);
            && (s.p.LoadNextFront? ==> var n := s.q.blocks[Tail(s.q).next]; n.front == n.tail)
            && (s.c.LoadNextTail? ==> var n := s.q.blocks[s.c.nextBlock]; n.front != n.tail)
  {
    NewQueueOk(q);
    var s := After(Begin(q), ms, maxBlock);
    hide After;
    InvWellFormed(s);
    assert Tail(s.q) in s.q.blocks;
    if s.p.LoadNextFront? { NextBlockEmpty(s); }
    if s.c.LoadNextTail? { NextBlockNonEmpty(s); }
  }
}
