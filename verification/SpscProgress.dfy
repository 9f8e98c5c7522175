/** How calls of the ReaderWriterQueue end: after few accesses of their own, and with an outcome. */
module SpscProgress {
  import opened SpscQueue
  import opened SpscCapacity

  /** A bound on the accesses a call still makes. */
  function ProducerRank(p: Producer): nat {
    match p
    case Ready => 0
    case StoreTail(_) => 1
    case StoreTailBlock(_) => 1
    case WriteItem(_) => 2
    case StoreNextTail(_) => 2
    case LinkBlock(_) => 2
    case WriteNextItem(_) => 3
    case LoadNextFront(_) => 4
    case CheckNext(_, _) => 5
    case LoadFront(_, _) => 6
  }

  function ConsumerRank(c: Consumer): nat {
    match c
    case Quiet => 0
    case StoreFront(_) => 1
    case ReadItem(_, _) => 2
    case StoreFrontBlock(_) => 3
    case LoadNextTail(_, _) => 4
    case LoadNext(_) => 5
    case ReloadTail(_) => 6
    case LoadTailBlock(_) => 7
    case LoadTail(_) => 8
  }

  /** Both sides are wait-free: whatever the other thread does in between, a call makes at most 6 or 8 accesses. */
  lemma WaitFree(s: State, maxBlock: nat, e: int, alloc: bool, op: Op)
    requires WellFormed(s)
    ensures ProducerRank(BeginEnqueue(s, e, alloc).p) <= 6 && ConsumerRank(BeginConsume(s, op).c) <= 8
    ensures s.p != Ready ==> ProducerRank(ProducerStep(s, maxBlock).p) < ProducerRank(s.p)
    ensures s.c != Quiet ==> ConsumerRank(ConsumerStep(s).c) < ConsumerRank(s.c)
    ensures ProducerStep(s, maxBlock).c == s.c && ConsumerStep(s).p == s.p
  {
    assert Tail(s.q) in s.q.blocks;
    assert Front(s.q) in s.q.blocks;
  }

  function Element(p: Producer): int {
    match p
    case Ready => 0
    case _ => p.e
  }

  predicate Allocates(p: Producer) {
    (p.LoadFront? || p.CheckNext?) && p.alloc
  }

  /**
   * From whatever place, an enqueuing call returns with its own element appended, or try_enqueue is refused where it
   * finds no block to go on to; enqueue never is.
   */
  lemma EnqueueReturns(s: State, maxBlock: nat)
    requires WellFormed(s) && s.p != Ready
    ensures var s' := ProducerStep(s, maxBlock);
            && (s'.p == Ready ==>
                  || s'.h.enqueued == s.h.enqueued + [Element(s.p)]
                  || (s.p.CheckNext? && !s.p.alloc && s'.h.enqueued == s.h.enqueued))
            && (s'.p != Ready ==> s'.h.enqueued == s.h.enqueued && Element(s'.p) == Element(s.p))
            && (Allocates(s.p) ==> s'.p != Ready)
  {
  }

  /** Blocks are added, never resized; a new one doubles the largest size until that reaches maxBlock. */
  lemma BlocksGrow(s: State, maxBlock: nat)
    requires WellFormed(s) && s.p != Ready
    ensures var q, q' := s.q, ProducerStep(s, maxBlock).q;
            && |q.blocks| <= |q'.blocks| <= |q.blocks| + 1
            && (forall k :: 0 <= k < |q.blocks| ==> q'.blocks[k].size == q.blocks[k].size)
            && (if |q'.blocks| > |q.blocks| then
                  && q'.blocks[|q.blocks|].size == q'.largest
                  && q'.largest == if q.largest < maxBlock then q.largest + q.largest else q.largest
                else q'.largest == q.largest)
            && (|q'.blocks| > |q.blocks| <==> s.p.LinkBlock?)
  {
  }

  /** A consuming call has no outcome until it returns, and returns with the outcome of its kind. */
  lemma ConsumeReturns(s: State)
    requires WellFormed(s) && s.c != Quiet && s.out == Pending
    ensures var s' := ConsumerStep(s);
            && (s'.c != Quiet <==> s'.out == Pending)
            && (s'.c == Quiet ==> s'.h.dequeued == if s'.out.Took? then s.h.dequeued + [s'.out.v] else s.h.dequeued)
            && (s'.c != Quiet ==> s'.h.dequeued == s.h.dequeued)
  {
  }

  /** The call returns and has added nothing. */
  predicate Refuses(s: State, s': State) {
    s.p != Ready && s'.p == Ready && s'.h.enqueued == s.h.enqueued
  }

  /**
   * The constructor's promise for every place of the call: try_enqueue returns without its element, in any
   * interleaving, only if at some instant the queue held maxSize elements or more.
   */
  lemma RefusesOnlyWhenFull(q: Queue, maxSize: nat, ms: seq<Move>, maxBlock: nat)
    requires NewQueue(q) && Usable(|q.blocks|, q.largest) >= maxSize
    ensures Inv(Begin(q))
    ensures var t := TrackedAfter(Tracked(Begin(q), 0), ms, maxBlock);
            WellFormed(t.s) && (Refuses(t.s, ProducerStep(t.s, maxBlock)) ==> t.peak >= maxSize)
  {
    RejectsOnlyWhenFull(q, maxSize, ms, maxBlock);
    hide Inv, TrackedAfter, Begin, ProducerStep;
    var t := TrackedAfter(Tracked(Begin(q), 0), ms, maxBlock);
    InvWellFormed(t.s);
    if t.s.p != Ready { EnqueueReturns(t.s, maxBlock); }
  }
}
