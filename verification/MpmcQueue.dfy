/**
 * The bounded multi-producer multi-consumer queue (libraries/spdlog/details/mpmc_bounded_q.h:83-134): any number of
 * threads, one atomic access a step, positions unbounded.
 */
module MpmcQueue {
  import opened Arith

  datatype Cell = Cell(sequence: int, data: int)

  /** Where a call is, named after its next access; `pos` is the local variable of the code. */
  datatype Thread =
    | Idle
    | LoadEnqueuePos(v: int)
    | LoadSequence(v: int, pos: int)
    | ClaimEnqueue(v: int, pos: int)
    | WriteData(v: int, pos: int)
    | PublishData(pos: int)
    | LoadDequeuePos
    | LoadFilled(pos: int)
    | ClaimDequeue(pos: int)
    | ReadData(pos: int)
    | ReleaseCell(pos: int, got: int)

  /**
   * `values` records the value of each claimed position; `writeCount` and `readCount` count the accesses to a
   * position's data, `results` what its dequeuer returned. No step reads these four.
   */
  datatype State = State(cells: seq<Cell>, enqueuePos: int, dequeuePos: int, threads: seq<Thread>,
                         values: seq<int>, writeCount: seq<nat>, readCount: seq<nat>, results: map<int, int>)

  predicate Shape(s: State) {
    && |s.cells| >= 2
    && s.enqueuePos == |s.values| == |s.writeCount|
    && s.dequeuePos == |s.readCount|
  }

  /** The cell of a position: pos & buffer_mask, the size being a power of two. */
  function Index(s: State, pos: int): (i: int)
    requires |s.cells| >= 2
    ensures 0 <= i < |s.cells|
  {
    pos % |s.cells|
  }

  // ---- steps ----

  datatype Move = Enqueue(t: nat, v: int) | Dequeue(t: nat) | Run(t: nat, spurious: bool)

  function SetThread(s: State, t: nat, th: Thread): State
    requires t < |s.threads|
  {
    s.(threads := s.threads[t := th])
  }

  function SetCell(s: State, pos: int, c: Cell): State
    requires |s.cells| >= 2
  {
    s.(cells := s.cells[Index(s, pos) := c])
  }

  function Counted(counts: seq<nat>, pos: int): seq<nat> {
    if 0 <= pos < |counts| then counts[pos := counts[pos] + 1] else counts
  }

  /** One access of the thread; a weak compare-exchange may fail spuriously. */
  function Access(s: State, t: nat, spurious: bool): State
    requires Shape(s) && t < |s.threads|
  {
    match s.threads[t]
    case Idle => s
    case LoadEnqueuePos(v) => SetThread(s, t, LoadSequence(v, s.enqueuePos))
    case LoadSequence(v, pos) =>
      var dif := s.cells[Index(s, pos)].sequence - pos;
      SetThread(s, t, if dif == 0 then ClaimEnqueue(v, pos) else if dif < 0 then Idle else LoadEnqueuePos(v))
    case ClaimEnqueue(v, pos) =>
      if s.enqueuePos == pos && !spurious then
        SetThread(s, t, WriteData(v, pos)).(enqueuePos := pos + 1, values := s.values + [v], writeCount := s.writeCount + [0])
      else SetThread(s, t, LoadSequence(v, s.enqueuePos))
    case WriteData(v, pos) =>
      var c := s.cells[Index(s, pos)];
      SetThread(SetCell(s, pos, c.(data := v)), t, PublishData(pos)).(
        writeCount := Counted(s.writeCount, pos))
    case PublishData(pos) =>
      var c := s.cells[Index(s, pos)];
      SetThread(SetCell(s, pos, c.(sequence := pos + 1)), t, Idle)
    case LoadDequeuePos => SetThread(s, t, LoadFilled(s.dequeuePos))
    case LoadFilled(pos) =>
      var dif := s.cells[Index(s, pos)].sequence - (pos + 1);
      SetThread(s, t, if dif == 0 then ClaimDequeue(pos) else if dif < 0 then Idle else LoadDequeuePos)
    case ClaimDequeue(pos) =>
      if s.dequeuePos == pos && !spurious then
        SetThread(s, t, ReadData(pos)).(dequeuePos := pos + 1, readCount := s.readCount + [0])
      else SetThread(s, t, LoadFilled(s.dequeuePos))
    case ReadData(pos) =>
      SetThread(s, t, ReleaseCell(pos, s.cells[Index(s, pos)].data)).(
        readCount := Counted(s.readCount, pos))
    case ReleaseCell(pos, got) =>
      var c := s.cells[Index(s, pos)];
      SetThread(SetCell(s, pos, c.(sequence := pos + |s.cells|)), t, Idle).(results := s.results[pos := got])
  }

  function Step(s: State, m: Move): State
    requires Shape(s)
  {
    if m.t >= |s.threads| then s
    else
      match m
      case Enqueue(t, v) => if s.threads[t] == Idle then SetThread(s, t, LoadEnqueuePos(v)) else s
      case Dequeue(t) => if s.threads[t] == Idle then SetThread(s, t, LoadDequeuePos) else s
      case Run(t, spurious) => Access(s, t, spurious)
  }

  // ---- the invariant ----

  /** The position a cell is serving, and whether that position's element has been published. */
  function Filled(s: State, i: nat): bool
    requires |s.cells| >= 2 && i < |s.cells|
  {
    s.cells[i].sequence % |s.cells| != i
  }

  function Serving(s: State, i: nat): int
    requires |s.cells| >= 2 && i < |s.cells|
  {
    if Filled(s, i) then s.cells[i].sequence - 1 else s.cells[i].sequence
  }

  predicate Enqueuing(th: Thread, p: int) {
    (th.WriteData? || th.PublishData?) && th.pos == p
  }

  predicate Dequeuing(th: Thread, p: int) {
    (th.ReadData? || th.ReleaseCell?) && th.pos == p
  }

  predicate Writing(th: Thread, p: int) {
    th.WriteData? && th.pos == p
  }

  predicate Reading(th: Thread, p: int) {
    th.ReadData? && th.pos == p
  }

  ghost predicate EnqueuerOf(s: State, p: int) {
    exists t :: 0 <= t < |s.threads| && Enqueuing(s.threads[t], p)
  }

  ghost predicate DequeuerOf(s: State, p: int) {
    exists t :: 0 <= t < |s.threads| && Dequeuing(s.threads[t], p)
  }

  ghost predicate WriterOf(s: State, p: int) {
    exists t :: 0 <= t < |s.threads| && Writing(s.threads[t], p)
  }

  ghost predicate ReaderOf(s: State, p: int) {
    exists t :: 0 <= t < |s.threads| && Reading(s.threads[t], p)
  }

  /** A cell serves a position of its own index inside the window of one buffer around the two counters. */
  ghost predicate CellOk(s: State, i: nat)
    requires Shape(s) && i < |s.cells|
  {
    var p, n := Serving(s, i), |s.cells|;
    && 0 <= p < s.dequeuePos + n && p % n == i && s.enqueuePos <= p + n
    && (if Filled(s, i) then
          p < s.enqueuePos && s.cells[i].data == s.values[p] && (p < s.dequeuePos ==> DequeuerOf(s, p))
        else s.dequeuePos <= p && (p < s.enqueuePos ==> EnqueuerOf(s, p)))
  }

  predicate Free(s: State, pos: int)
    requires |s.cells| >= 2
  {
    s.cells[Index(s, pos)].sequence == pos
  }

  predicate Published(s: State, pos: int)
    requires |s.cells| >= 2
  {
    s.cells[Index(s, pos)].sequence == pos + 1
  }

  predicate ThreadOk(s: State, th: Thread)
    requires Shape(s)
  {
    match th
    case LoadSequence(_, pos) => 0 <= pos <= s.enqueuePos
    case ClaimEnqueue(_, pos) => 0 <= pos <= s.enqueuePos && (pos == s.enqueuePos ==> Free(s, pos))
    case WriteData(v, pos) => 0 <= pos < s.enqueuePos && Free(s, pos) && s.values[pos] == v && s.writeCount[pos] == 0
    case PublishData(pos) =>
      0 <= pos < s.enqueuePos && Free(s, pos) && s.cells[Index(s, pos)].data == s.values[pos] && s.writeCount[pos] == 1
    case LoadFilled(pos) => 0 <= pos <= s.dequeuePos
    case ClaimDequeue(pos) => 0 <= pos <= s.dequeuePos && (pos == s.dequeuePos ==> Published(s, pos))
    case ReadData(pos) => 0 <= pos < s.dequeuePos && Published(s, pos) && s.readCount[pos] == 0
    case ReleaseCell(pos, got) =>
      && 0 <= pos < s.dequeuePos <= s.enqueuePos && Published(s, pos) && got == s.values[pos] && s.readCount[pos] == 1
    case _ => true
  }

  /** No two threads work on the same position from the same side. */
  predicate Apart(a: Thread, b: Thread) {
    && ((a.WriteData? || a.PublishData?) && (b.WriteData? || b.PublishData?) ==> a.pos != b.pos)
    && ((a.ReadData? || a.ReleaseCell?) && (b.ReadData? || b.ReleaseCell?) ==> a.pos != b.pos)
  }

  predicate AllApart(s: State) {
    forall t, u {:trigger Apart(s.threads[t], s.threads[u])} ::
      0 <= t < |s.threads| && 0 <= u < |s.threads| && t != u ==> Apart(s.threads[t], s.threads[u])
  }

  ghost predicate WrittenOk(s: State, p: int)
    requires Shape(s) && 0 <= p < s.enqueuePos
  {
    s.writeCount[p] == 1 || (s.writeCount[p] == 0 && WriterOf(s, p))
  }

  ghost predicate ReadOk(s: State, p: int)
    requires Shape(s) && 0 <= p < s.dequeuePos
  {
    s.readCount[p] == 1 || (s.readCount[p] == 0 && ReaderOf(s, p))
  }

  ghost predicate Inv(s: State) {
    && Shape(s) && s.dequeuePos <= s.enqueuePos
    && (forall i: nat {:trigger CellOk(s, i)} :: i < |s.cells| ==> CellOk(s, i))
    && (forall t {:trigger ThreadOk(s, s.threads[t])} :: 0 <= t < |s.threads| ==> ThreadOk(s, s.threads[t]))
    && AllApart(s)
    && (forall p {:trigger WrittenOk(s, p)} :: 0 <= p < s.enqueuePos ==> WrittenOk(s, p))
    && (forall p {:trigger ReadOk(s, p)} :: 0 <= p < s.dequeuePos ==> ReadOk(s, p))
    && (forall p :: p in s.results ==> 0 <= p < s.dequeuePos && s.results[p] == s.values[p])
  }

  // ---- positions sharing a cell ----

  lemma SameIndex(p: int, q: int, n: int)
    requires n > 0 && p % n == q % n && p < q
    ensures q >= p + n
  {
    ModEqual(q, p, n);
    MulAtLeast(q / n - p / n, n);
  }

  /** The two sequence values a cell can have for position p tell p and its phase. */
  lemma ServingIs(s: State, pos: int)
    requires |s.cells| >= 2
    ensures Free(s, pos) ==> !Filled(s, Index(s, pos)) && Serving(s, Index(s, pos)) == pos
    ensures Published(s, pos) ==> Filled(s, Index(s, pos)) && Serving(s, Index(s, pos)) == pos
  {
    var n := |s.cells|;
    if (pos + 1) % n == pos % n { SameIndex(pos, pos + 1, n); }
  }

  predicate Owner(th: Thread) {
    th.WriteData? || th.PublishData? || th.ReadData? || th.ReleaseCell?
  }

  // ---- steps that only change the thread ----

  lemma LocalKeeps(s: State, t: nat, th: Thread)
    requires Inv(s) && t < |s.threads| && !Owner(s.threads[t]) && !Owner(th) && ThreadOk(s, th)
    ensures Inv(SetThread(s, t, th))
  {
    hide ThreadOk;
    var s' := SetThread(s, t, th);
    forall i: nat | i < |s'.cells| ensures CellOk(s', i) {
      assert CellOk(s, i);
      OwnersStay(s, s', t, Serving(s, i));
    }
    forall u | 0 <= u < |s'.threads| ensures ThreadOk(s', s'.threads[u]) {
      assert ThreadOk(s, s.threads[u]);
      ThreadOkIgnoresThreads(s, s', s'.threads[u]);
    }
    forall p | 0 <= p < s'.enqueuePos ensures WrittenOk(s', p) {
      assert WrittenOk(s, p);
      OwnersStay(s, s', t, p);
    }
    forall p | 0 <= p < s'.dequeuePos ensures ReadOk(s', p) {
      assert ReadOk(s, p);
      OwnersStay(s, s', t, p);
    }
    forall u, v | 0 <= u < |s'.threads| && 0 <= v < |s'.threads| && u != v ensures Apart(s'.threads[u], s'.threads[v]) {
      assert Apart(s.threads[u], s.threads[v]);
    }
  }

  lemma ThreadOkIgnoresThreads(s: State, s': State, th: Thread)
    requires Shape(s) && s' == s.(threads := s'.threads)
    ensures ThreadOk(s, th) <==> ThreadOk(s', th)
  {
  }

  /** Changing thread t to one that works on the same positions, or from one that works on none, keeps all owners. */
  lemma OwnersStay(s: State, s': State, t: nat, p: int)
    requires t < |s.threads| == |s'.threads| && forall u :: 0 <= u < |s.threads| && u != t ==> s'.threads[u] == s.threads[u]
    ensures EnqueuerOf(s, p) && (Enqueuing(s.threads[t], p) ==> Enqueuing(s'.threads[t], p)) ==> EnqueuerOf(s', p)
    ensures DequeuerOf(s, p) && (Dequeuing(s.threads[t], p) ==> Dequeuing(s'.threads[t], p)) ==> DequeuerOf(s', p)
    ensures WriterOf(s, p) && (Writing(s.threads[t], p) ==> Writing(s'.threads[t], p)) ==> WriterOf(s', p)
    ensures ReaderOf(s, p) && (Reading(s.threads[t], p) ==> Reading(s'.threads[t], p)) ==> ReaderOf(s', p)
  {
  }

  // ---- claiming ----

  lemma ClaimEnqueueKeeps(s: State, t: nat)
    requires Inv(s) && t < |s.threads| && s.threads[t].ClaimEnqueue? && s.threads[t].pos == s.enqueuePos
    ensures Inv(Access(s, t, false))
  {
    hide ThreadOk;
    var pos, s' := s.enqueuePos, Access(s, t, false);
    assert ThreadOk(s, s.threads[t]);
    ClaimFacts(s, t);
    assert Enqueuing(s'.threads[t], pos) && Writing(s'.threads[t], pos);
    forall i: nat | i < |s'.cells| ensures CellOk(s', i) {
      assert CellOk(s, i);
      OwnersStay(s, s', t, Serving(s, i));
      ClaimCell(s, i);
    }
    forall u | 0 <= u < |s'.threads| ensures ThreadOk(s', s'.threads[u]) {
      assert ThreadOk(s, s.threads[u]);
      ClaimThread(s, s', t, u);
    }
    forall p | 0 <= p < s'.enqueuePos ensures WrittenOk(s', p) {
      assert p < pos ==> WrittenOk(s, p);
      OwnersStay(s, s', t, p);
    }
    forall p | 0 <= p < s'.dequeuePos ensures ReadOk(s', p) {
      assert ReadOk(s, p);
      OwnersStay(s, s', t, p);
    }
    forall u, v | 0 <= u < |s'.threads| && 0 <= v < |s'.threads| && u != v ensures Apart(s'.threads[u], s'.threads[v]) {
      assert Apart(s.threads[u], s.threads[v]);
      assert ThreadOk(s, s.threads[u]) && ThreadOk(s, s.threads[v]);
      BelowClaim(s, s.threads[u]);
      BelowClaim(s, s.threads[v]);
    }
  }

  lemma ClaimFacts(s: State, t: nat)
    requires Shape(s) && t < |s.threads| && s.threads[t].ClaimEnqueue? && ThreadOk(s, s.threads[t])
    ensures s.threads[t].pos == s.enqueuePos ==> Free(s, s.enqueuePos)
  {
  }

  lemma BelowClaim(s: State, th: Thread)
    requires Shape(s) && ThreadOk(s, th)
    ensures (th.WriteData? || th.PublishData?) ==> th.pos < s.enqueuePos
    ensures (th.ReadData? || th.ReleaseCell?) ==> th.pos < s.dequeuePos
  {
  }

  /** The claimed position is within one buffer of what every cell serves. */
  lemma ClaimCell(s: State, i: nat)
    requires Shape(s) && i < |s.cells| && CellOk(s, i) && Free(s, s.enqueuePos)
    ensures s.enqueuePos + 1 <= Serving(s, i) + |s.cells|
    ensures !Filled(s, i) && Serving(s, i) == s.enqueuePos <==> i == Index(s, s.enqueuePos)
  {
    var pos, n := s.enqueuePos, |s.cells|;
    ServingIs(s, pos);
    ModShift(Serving(s, i), 1, n);
    assert (Serving(s, i) + n) % n == i;
  }

  lemma ClaimThread(s: State, s': State, t: nat, u: nat)
    requires Shape(s) && t < |s.threads| && u < |s.threads| && ThreadOk(s, s.threads[u])
    requires s.threads[t].ClaimEnqueue? && s.threads[t].pos == s.enqueuePos && Free(s, s.enqueuePos)
    requires s' == Access(s, t, false) && s.dequeuePos <= s.enqueuePos
    ensures ThreadOk(s', s'.threads[u])
  {
  }

  lemma ClaimDequeueCell(s: State, s': State, t: nat, i: nat)
    requires Shape(s) && Shape(s') && i < |s.cells| && CellOk(s, i) && t < |s.threads| == |s'.threads|
    requires Published(s, s.dequeuePos) && s'.cells == s.cells && s'.values == s.values
    requires s'.dequeuePos == s.dequeuePos + 1 && s'.enqueuePos == s.enqueuePos
    requires !Owner(s.threads[t]) && Dequeuing(s'.threads[t], s.dequeuePos)
    requires forall u :: 0 <= u < |s.threads| && u != t ==> s'.threads[u] == s.threads[u]
    ensures CellOk(s', i)
  {
  }

  lemma ClaimDequeueKeeps(s: State, t: nat)
    requires Inv(s) && t < |s.threads| && s.threads[t].ClaimDequeue? && s.threads[t].pos == s.dequeuePos
    ensures Inv(Access(s, t, false))
  {
    hide ThreadOk, CellOk;
    var pos, s' := s.dequeuePos, Access(s, t, false);
    assert ThreadOk(s, s.threads[t]);
    ClaimDequeueFacts(s, t);
    assert CellOk(s, Index(s, pos));
    PublishedData(s, pos);
    assert Dequeuing(s'.threads[t], pos) && Reading(s'.threads[t], pos);
    forall i: nat | i < |s'.cells| ensures CellOk(s', i) {
      assert CellOk(s, i);
      ClaimDequeueCell(s, s', t, i);
    }
    hide Published, Free, Index;
    forall u | 0 <= u < |s'.threads| ensures ThreadOk(s', s'.threads[u]) {
      assert ThreadOk(s, s.threads[u]);
      ClaimDequeueThread(s, s', t, u);
    }
    forall p | 0 <= p < s'.enqueuePos ensures WrittenOk(s', p) {
      assert WrittenOk(s, p);
      OwnersStay(s, s', t, p);
    }
    forall p | 0 <= p < s'.dequeuePos ensures ReadOk(s', p) {
      assert p < pos ==> ReadOk(s, p);
      OwnersStay(s, s', t, p);
    }
    forall u, v | 0 <= u < |s'.threads| && 0 <= v < |s'.threads| && u != v ensures Apart(s'.threads[u], s'.threads[v]) {
      assert Apart(s.threads[u], s.threads[v]);
      assert ThreadOk(s, s.threads[u]) && ThreadOk(s, s.threads[v]);
      BelowClaim(s, s.threads[u]);
      BelowClaim(s, s.threads[v]);
    }
  }

  lemma ClaimDequeueFacts(s: State, t: nat)
    requires Shape(s) && t < |s.threads| && s.threads[t].ClaimDequeue? && ThreadOk(s, s.threads[t])
    ensures s.threads[t].pos == s.dequeuePos ==> Published(s, s.dequeuePos)
  {
  }

  lemma ClaimDequeueThread(s: State, s': State, t: nat, u: nat)
    requires Shape(s) && t < |s.threads| && u < |s.threads| && ThreadOk(s, s.threads[u])
    requires s.threads[t].ClaimDequeue? && s.threads[t].pos == s.dequeuePos && Published(s, s.dequeuePos)
    requires s' == Access(s, t, false) && s.dequeuePos < s.enqueuePos
    ensures ThreadOk(s', s'.threads[u])
  {
  }

  // ---- working on a claimed position ----

  /** Another thread whose facts concern the cell of `pos` cannot be one this step disturbs. */
  lemma SameCell(s: State, pos: int, q: int)
    requires |s.cells| >= 2 && Index(s, pos) == Index(s, q)
    requires (Free(s, pos) || Published(s, pos)) && (Free(s, q) || Published(s, q))
    ensures q == pos && (Free(s, q) <==> Free(s, pos))
  {
    ServingIs(s, pos);
    ServingIs(s, q);
  }

  predicate OthersSame(s: State, s': State, t: nat) {
    t < |s.threads| == |s'.threads| && forall u :: 0 <= u < |s.threads| && u != t ==> s'.threads[u] == s.threads[u]
  }

  /** A step on thread t's own position keeps the counts right. */
  lemma CountsStay(s: State, s': State, t: nat)
    requires Inv(s) && Shape(s') && OthersSame(s, s', t) && Owner(s.threads[t])
    requires s'.enqueuePos == s.enqueuePos && s'.dequeuePos == s.dequeuePos
    requires var a := s.threads[t];
             && s'.writeCount == (if a.WriteData? then Counted(s.writeCount, a.pos) else s.writeCount)
             && s'.readCount == (if a.ReadData? then Counted(s.readCount, a.pos) else s.readCount)
    ensures forall p {:trigger WrittenOk(s', p)} :: 0 <= p < s'.enqueuePos ==> WrittenOk(s', p)
    ensures forall p {:trigger ReadOk(s', p)} :: 0 <= p < s'.dequeuePos ==> ReadOk(s', p)
  {
    hide ThreadOk, CellOk, WriterOf, ReaderOf, EnqueuerOf, DequeuerOf;
    assert ThreadOk(s, s.threads[t]);
    OwnerFacts(s, s.threads[t]);
    forall p | 0 <= p < s'.enqueuePos ensures WrittenOk(s', p) {
      assert WrittenOk(s, p);
      OwnersStay(s, s', t, p);
    }
    forall p | 0 <= p < s'.dequeuePos ensures ReadOk(s', p) {
      assert ReadOk(s, p);
      OwnersStay(s, s', t, p);
    }
  }

  lemma WriteThread(s: State, t: nat, u: nat)
    requires Shape(s) && t < |s.threads| && u < |s.threads| && s.threads[t].WriteData?
    requires ThreadOk(s, s.threads[t]) && ThreadOk(s, s.threads[u]) && (u != t ==> Apart(s.threads[t], s.threads[u]))
    ensures ThreadOk(Access(s, t, false), Access(s, t, false).threads[u])
  {
  }

  lemma WriteDataCell(s: State, t: nat, i: nat)
    requires Shape(s) && t < |s.threads| && i < |s.cells| && CellOk(s, i) && ThreadOk(s, s.threads[t])
    requires s.threads[t].WriteData?
    ensures CellOk(Access(s, t, false), i)
  {
    var pos, s' := s.threads[t].pos, Access(s, t, false);
    ServingIs(s, pos);
    OwnersStay(s, s', t, Serving(s, i));
  }

  lemma WriteDataKeeps(s: State, t: nat)
    requires Inv(s) && t < |s.threads| && s.threads[t].WriteData?
    ensures Inv(Access(s, t, false))
  {
    hide ThreadOk, CellOk, WrittenOk, ReadOk;
    var pos, s' := s.threads[t].pos, Access(s, t, false);
    assert ThreadOk(s, s.threads[t]);
    OwnerFacts(s, s.threads[t]);
    forall i: nat | i < |s'.cells| ensures CellOk(s', i) {
      assert CellOk(s, i);
      WriteDataCell(s, t, i);
    }
    forall u | 0 <= u < |s'.threads| ensures ThreadOk(s', s'.threads[u]) {
      assert ThreadOk(s, s.threads[u]);
      assert u != t ==> Apart(s.threads[t], s.threads[u]);
      WriteThread(s, t, u);
    }
    CountsStay(s, s', t);
    SamePosApart(s, s', t);
  }

  /** What the threads at work know about their position. */
  lemma OwnerFacts(s: State, th: Thread)
    requires Shape(s) && ThreadOk(s, th)
    ensures th.WriteData? || th.PublishData? ==> 0 <= th.pos < s.enqueuePos && Free(s, th.pos)
    ensures th.WriteData? ==> s.writeCount[th.pos] == 0
    ensures th.PublishData? ==> s.writeCount[th.pos] == 1 && s.cells[Index(s, th.pos)].data == s.values[th.pos]
    ensures th.ReadData? || th.ReleaseCell? ==> 0 <= th.pos < s.dequeuePos && Published(s, th.pos)
    ensures th.ReadData? ==> s.readCount[th.pos] == 0
    ensures th.ReleaseCell? ==> s.readCount[th.pos] == 1 && th.pos < s.enqueuePos && th.got == s.values[th.pos]
  {
  }

  /** Thread t keeps its position and side, or gives them up: the others stay apart from it. */
  lemma SamePosApart(s: State, s': State, t: nat)
    requires AllApart(s) && t < |s.threads| == |s'.threads|
    requires forall u :: 0 <= u < |s.threads| && u != t ==> s'.threads[u] == s.threads[u]
    requires var a, b := s.threads[t], s'.threads[t];
             !Owner(b) || (Owner(a) && b.pos == a.pos && (a.WriteData? || a.PublishData?) == (b.WriteData? || b.PublishData?))
    ensures AllApart(s')
  {
    forall u, v | 0 <= u < |s'.threads| && 0 <= v < |s'.threads| && u != v ensures Apart(s'.threads[u], s'.threads[v]) {
      assert Apart(s.threads[u], s.threads[v]);
    }
  }

  lemma PublishThread(s: State, t: nat, u: nat)
    requires Shape(s) && t < |s.threads| && u < |s.threads| && s.threads[t].PublishData?
    requires ThreadOk(s, s.threads[t]) && ThreadOk(s, s.threads[u]) && (u != t ==> Apart(s.threads[t], s.threads[u]))
    ensures ThreadOk(Access(s, t, false), Access(s, t, false).threads[u])
  {
    var pos, th, s' := s.threads[t].pos, s.threads[u], Access(s, t, false);
    if u != t && (Owner(th) || th.ClaimEnqueue? || th.ClaimDequeue?) {
      if Index(s, th.pos) == Index(s, pos) && (Free(s, th.pos) || Published(s, th.pos)) {
        SameCell(s, pos, th.pos);
      }
    }
  }

  lemma PublishDataCell(s: State, t: nat, i: nat)
    requires Shape(s) && t < |s.threads| && i < |s.cells| && CellOk(s, i) && ThreadOk(s, s.threads[t])
    requires s.threads[t].PublishData?
    ensures CellOk(Access(s, t, false), i)
  {
    var pos, s' := s.threads[t].pos, Access(s, t, false);
    ServingIs(s, pos);
    OwnersStay(s, s', t, Serving(s, i));
    ServingIs(s', pos);
  }

  lemma PublishDataKeeps(s: State, t: nat)
    requires Inv(s) && t < |s.threads| && s.threads[t].PublishData?
    ensures Inv(Access(s, t, false))
  {
    hide ThreadOk, CellOk, WrittenOk, ReadOk;
    var pos, s' := s.threads[t].pos, Access(s, t, false);
    assert ThreadOk(s, s.threads[t]);
    OwnerFacts(s, s.threads[t]);
    forall i: nat | i < |s'.cells| ensures CellOk(s', i) {
      assert CellOk(s, i);
      PublishDataCell(s, t, i);
    }
    forall u | 0 <= u < |s'.threads| ensures ThreadOk(s', s'.threads[u]) {
      assert ThreadOk(s, s.threads[u]);
      assert u != t ==> Apart(s.threads[t], s.threads[u]);
      PublishThread(s, t, u);
    }
    CountsStay(s, s', t);
    SamePosApart(s, s', t);
  }

  lemma PublishedData(s: State, pos: int)
    requires Shape(s) && CellOk(s, Index(s, pos)) && Published(s, pos)
    ensures 0 <= pos < s.enqueuePos && s.cells[Index(s, pos)].data == s.values[pos]
  {
    ServingIs(s, pos);
  }

  lemma ReadThread(s: State, t: nat, u: nat)
    requires Shape(s) && t < |s.threads| && u < |s.threads| && s.threads[t].ReadData?
    requires ThreadOk(s, s.threads[t]) && ThreadOk(s, s.threads[u]) && (u != t ==> Apart(s.threads[t], s.threads[u]))
    requires s.dequeuePos <= s.enqueuePos && s.cells[Index(s, s.threads[t].pos)].data == s.values[s.threads[t].pos]
    ensures ThreadOk(Access(s, t, false), Access(s, t, false).threads[u])
  {
  }

  lemma ReadDataCell(s: State, t: nat, i: nat)
    requires Shape(s) && t < |s.threads| && i < |s.cells| && CellOk(s, i) && ThreadOk(s, s.threads[t])
    requires s.threads[t].ReadData?
    ensures CellOk(Access(s, t, false), i)
  {
    var pos, s' := s.threads[t].pos, Access(s, t, false);
    ServingIs(s, pos);
    OwnersStay(s, s', t, Serving(s, i));
  }

  lemma ReadDataKeeps(s: State, t: nat)
    requires Inv(s) && t < |s.threads| && s.threads[t].ReadData?
    ensures Inv(Access(s, t, false))
  {
    hide ThreadOk, CellOk, WrittenOk, ReadOk;
    var pos, s' := s.threads[t].pos, Access(s, t, false);
    assert ThreadOk(s, s.threads[t]);
    OwnerFacts(s, s.threads[t]);
    forall i: nat | i < |s'.cells| ensures CellOk(s', i) {
      assert CellOk(s, i);
      ReadDataCell(s, t, i);
    }
    assert CellOk(s, Index(s, pos));
    PublishedData(s, pos);
    forall u | 0 <= u < |s'.threads| ensures ThreadOk(s', s'.threads[u]) {
      assert ThreadOk(s, s.threads[u]);
      assert u != t ==> Apart(s.threads[t], s.threads[u]);
      ReadThread(s, t, u);
    }
    CountsStay(s, s', t);
    SamePosApart(s, s', t);
  }

  lemma ReleaseThread(s: State, t: nat, u: nat)
    requires Shape(s) && t < |s.threads| && u < |s.threads| && s.threads[t].ReleaseCell?
    requires ThreadOk(s, s.threads[t]) && ThreadOk(s, s.threads[u]) && (u != t ==> Apart(s.threads[t], s.threads[u]))
    ensures ThreadOk(Access(s, t, false), Access(s, t, false).threads[u])
  {
    var pos, th, s' := s.threads[t].pos, s.threads[u], Access(s, t, false);
    if u != t && (Owner(th) || th.ClaimEnqueue? || th.ClaimDequeue?) {
      if Index(s, th.pos) == Index(s, pos) && (Free(s, th.pos) || Published(s, th.pos)) {
        SameCell(s, pos, th.pos);
      }
    }
  }

  lemma ReleaseCellCell(s: State, t: nat, i: nat)
    requires Shape(s) && t < |s.threads| && i < |s.cells| && CellOk(s, i) && ThreadOk(s, s.threads[t])
    requires s.threads[t].ReleaseCell?
    ensures CellOk(Access(s, t, false), i)
  {
    var pos, s' := s.threads[t].pos, Access(s, t, false);
    ServingIs(s, pos);
    OwnersStay(s, s', t, Serving(s, i));
    ModShift(pos, 1, |s.cells|);
    ServingIs(s', pos + |s.cells|);
  }

  lemma ReleaseCellKeeps(s: State, t: nat)
    requires Inv(s) && t < |s.threads| && s.threads[t].ReleaseCell?
    ensures Inv(Access(s, t, false))
  {
    hide ThreadOk, CellOk, WrittenOk, ReadOk;
    var pos, s' := s.threads[t].pos, Access(s, t, false);
    assert ThreadOk(s, s.threads[t]);
    OwnerFacts(s, s.threads[t]);
    forall i: nat | i < |s'.cells| ensures CellOk(s', i) {
      assert CellOk(s, i);
      ReleaseCellCell(s, t, i);
    }
    forall u | 0 <= u < |s'.threads| ensures ThreadOk(s', s'.threads[u]) {
      assert ThreadOk(s, s.threads[u]);
      assert u != t ==> Apart(s.threads[t], s.threads[u]);
      ReleaseThread(s, t, u);
    }
    CountsStay(s, s', t);
    SamePosApart(s, s', t);
  }

  // ---- runs ----

  /** Loads, failed claims and calls that return false. */
  lemma LoadKeeps(s: State, t: nat, spurious: bool)
    requires Inv(s) && t < |s.threads| && !Owner(s.threads[t])
    requires s.threads[t].ClaimEnqueue? ==> spurious || s.threads[t].pos != s.enqueuePos
    requires s.threads[t].ClaimDequeue? ==> spurious || s.threads[t].pos != s.dequeuePos
    ensures Inv(Access(s, t, spurious))
  {
    hide CellOk, AllApart, WrittenOk, ReadOk;
    assert ThreadOk(s, s.threads[t]);
    var s' := Access(s, t, spurious);
    if s.threads[t] != Idle {
      assert ThreadOk(s, s'.threads[t]);
      LocalKeeps(s, t, s'.threads[t]);
    }
  }

  lemma StepKeeps(s: State, m: Move)
    requires Inv(s)
    ensures Inv(Step(s, m))
  {
    hide Inv, CellOk, AllApart;
    assert Inv(s) ==> Shape(s) by { InvShape(s); }
    var t := m.t;
    if t < |s.threads| {
      match m {
        case Enqueue(_, v) => if s.threads[t] == Idle { LocalKeeps(s, t, LoadEnqueuePos(v)); }
        case Dequeue(_) => if s.threads[t] == Idle { LocalKeeps(s, t, LoadDequeuePos); }
        case Run(_, spurious) => AccessKeeps(s, t, spurious);
      }
    }
  }

  lemma InvShape(s: State)
    requires Inv(s)
    ensures Shape(s)
  {
  }

  lemma AccessKeeps(s: State, t: nat, spurious: bool)
    requires Inv(s) && Shape(s) && t < |s.threads|
    ensures Inv(Access(s, t, spurious))
  {
    hide Inv;
    var th := s.threads[t];
    if th.ClaimEnqueue? && th.pos == s.enqueuePos && !spurious {
      ClaimEnqueueKeeps(s, t);
    } else if th.ClaimDequeue? && th.pos == s.dequeuePos && !spurious {
      ClaimDequeueKeeps(s, t);
    } else if th.WriteData? {
      WriteDataKeeps(s, t);
      assert Access(s, t, false) == Access(s, t, spurious);
    } else if th.PublishData? {
      PublishDataKeeps(s, t);
      assert Access(s, t, false) == Access(s, t, spurious);
    } else if th.ReadData? {
      ReadDataKeeps(s, t);
      assert Access(s, t, false) == Access(s, t, spurious);
    } else if th.ReleaseCell? {
      ReleaseCellKeeps(s, t);
      assert Access(s, t, false) == Access(s, t, spurious);
    } else {
      LoadKeeps(s, t, spurious);
    }
  }

  /** The constructor, with any number of threads. */
  function Begin(size: nat, threads: nat, junk: int): State {
    State(seq(size, i => Cell(i, junk)), 0, 0, seq(threads, _ => Idle), [], [], [], map[])
  }

  lemma BeginOk(size: nat, threads: nat, junk: int)
    requires size >= 2
    ensures Inv(Begin(size, threads, junk))
  {
    var s := Begin(size, threads, junk);
    forall i: nat | i < |s.cells| ensures CellOk(s, i) {
      ModUnique(i, size, 0, i);
    }
  }

  ghost function After(s: State, ms: seq<Move>): (r: State)
    requires Inv(s)
    ensures Inv(r)
    decreases |ms|
  {
    if ms == [] then s
    else
      StepKeeps(s, ms[0]);
      After(Step(s, ms[0]), ms[1..])
  }

  // ---- what every run keeps ----

  lemma Window(s: State)
    requires Inv(s)
    ensures s.dequeuePos <= s.enqueuePos <= s.dequeuePos + |s.cells|
  {
    var d, n := s.dequeuePos, |s.cells|;
    var i := Index(s, d);
    assert CellOk(s, i);
    var p := Serving(s, i);
    if p < d { SameIndex(p, d, n); }
    if d < p { SameIndex(d, p, n); }
  }

  /**
   * Under every interleaving of any number of threads: a position's data is written at most once and read at most
   * once, exactly once when no thread is still about to; whoever dequeues position p gets the value enqueued at p;
   * and no more than one buffer of positions is outstanding.
   */
  lemma EachPositionOnce(size: nat, threads: nat, junk: int, ms: seq<Move>)
    requires size >= 2
    ensures Inv(Begin(size, threads, junk))
    ensures var s := After(Begin(size, threads, junk), ms);
            && s.dequeuePos <= s.enqueuePos <= s.dequeuePos + |s.cells|
            && (forall p :: 0 <= p < s.enqueuePos ==> s.writeCount[p] <= 1 && (s.writeCount[p] == 1 || WriterOf(s, p)))
            && (forall p :: 0 <= p < s.dequeuePos ==> s.readCount[p] <= 1 && (s.readCount[p] == 1 || ReaderOf(s, p)))
            && (forall p :: p in s.results ==> 0 <= p < s.dequeuePos && s.results[p] == s.values[p])
  {
    BeginOk(size, threads, junk);
    hide After, Begin, CellOk, ThreadOk, AllApart;
    var s := After(Begin(size, threads, junk), ms);
    Window(s);
    forall p | 0 <= p < s.enqueuePos ensures s.writeCount[p] <= 1 && (s.writeCount[p] == 1 || WriterOf(s, p)) {
      assert WrittenOk(s, p);
    }
    forall p | 0 <= p < s.dequeuePos ensures s.readCount[p] <= 1 && (s.readCount[p] == 1 || ReaderOf(s, p)) {
      assert ReadOk(s, p);
    }
  }

  /** Once every call has returned, the cells hold exactly the values claimed and not yet dequeued, in order. */
  lemma QuietContents(s: State, p: int)
    requires Inv(s) && (forall th :: th in s.threads ==> !Owner(th)) && s.dequeuePos <= p < s.enqueuePos
    ensures Published(s, p) && s.cells[Index(s, p)].data == s.values[p]
  {
    hide ThreadOk, AllApart, WrittenOk, ReadOk;
    var i, n := Index(s, p), |s.cells|;
    Window(s);
    assert CellOk(s, i);
    var q := Serving(s, i);
    forall t | 0 <= t < |s.threads| ensures !Owner(s.threads[t]) {
      assert s.threads[t] in s.threads;
    }
    assert !EnqueuerOf(s, q) && !DequeuerOf(s, q);
    if q < p { SameIndex(q, p, n); }
    if p < q { SameIndex(p, q, n); }
  }

  /** The position one buffer before the next one has not been released by a dequeuer. */
  ghost predicate Full(s: State)
    requires Shape(s)
  {
    var pos, n := s.enqueuePos, |s.cells|;
    && Serving(s, Index(s, pos)) == pos - n
    && (Filled(s, Index(s, pos)) ==> pos - n >= s.dequeuePos || DequeuerOf(s, pos - n))
  }

  /** The next position to be dequeued has not been published. */
  ghost predicate Empty(s: State)
    requires Shape(s)
  {
    !Published(s, s.dequeuePos) && (s.dequeuePos == s.enqueuePos || EnqueuerOf(s, s.dequeuePos))
  }

  /** A call of enqueue that has not claimed a position, and so returns false if it returns now; likewise for dequeue. */
  predicate BeforeClaim(th: Thread) {
    th.LoadEnqueuePos? || th.LoadSequence? || th.ClaimEnqueue?
  }

  predicate BeforeTake(th: Thread) {
    th.LoadDequeuePos? || th.LoadFilled? || th.ClaimDequeue?
  }

  /**
   * From whatever place, enqueue returns without an element only when the buffer is full, and once it has claimed a
   * position it returns with the element published.
   */
  lemma FullMeansFull(s: State, t: nat, spurious: bool)
    requires Inv(s) && t < |s.threads|
    ensures Access(s, t, spurious).threads[t] == Idle && BeforeClaim(s.threads[t]) ==> Full(s)
    ensures Access(s, t, spurious).threads[t] == Idle && (s.threads[t].WriteData? || s.threads[t].PublishData?) ==>
              Published(Access(s, t, spurious), s.threads[t].pos)
  {
    hide AllApart, WrittenOk, ReadOk;
    assert ThreadOk(s, s.threads[t]);
    if s.threads[t].LoadSequence? {
      var pos, n := s.threads[t].pos, |s.cells|;
      var i := Index(s, pos);
      assert CellOk(s, i);
      var p := Serving(s, i);
      if p < pos { SameIndex(p, pos, n); }
    }
  }

  /**
   * From whatever place, dequeue returns without an element only when the next position is not published, and once it
   * has claimed a position it returns with that position's value.
   */
  lemma EmptyMeansEmpty(s: State, t: nat, spurious: bool)
    requires Inv(s) && t < |s.threads|
    ensures Access(s, t, spurious).threads[t] == Idle && BeforeTake(s.threads[t]) ==> Empty(s)
    ensures Access(s, t, spurious).threads[t] == Idle && (s.threads[t].ReadData? || s.threads[t].ReleaseCell?) ==>
              var pos := s.threads[t].pos;
              0 <= pos < |s.values| && Access(s, t, spurious).results == s.results[pos := s.values[pos]]
  {
    hide AllApart, WrittenOk, ReadOk;
    assert ThreadOk(s, s.threads[t]);
    if s.threads[t].LoadFilled? {
      var pos, n := s.threads[t].pos, |s.cells|;
      var i := Index(s, pos);
      assert CellOk(s, i);
      var p := Serving(s, i);
      if p < pos { SameIndex(p, pos, n); }
    }
  }

  // ---- a call that runs alone ----

  predicate AllIdle(s: State) {
    forall th :: th in s.threads ==> th == Idle
  }

  /** A call whose thread makes its next five accesses with no other thread's in between. */
  function CallAlone(call: Move): seq<Move> {
    [call] + seq(5, _ => Run(call.t, false))
  }

  /** A quiet queue's next cell for enqueuing is free unless a whole buffer is outstanding. */
  lemma QuietFree(s: State)
    requires Inv(s) && AllIdle(s)
    ensures Free(s, s.enqueuePos) <==> s.enqueuePos < s.dequeuePos + |s.cells|
    ensures Full(s) <==> s.enqueuePos == s.dequeuePos + |s.cells|
  {
    hide ThreadOk, AllApart, WrittenOk, ReadOk;
    var pos, n := s.enqueuePos, |s.cells|;
    var i := Index(s, pos);
    Window(s);
    assert CellOk(s, i);
    var p := Serving(s, i);
    forall t | 0 <= t < |s.threads| ensures s.threads[t] == Idle {
      assert s.threads[t] in s.threads;
    }
    assert !EnqueuerOf(s, p) && !DequeuerOf(s, p);
    ModShift(pos - n, 1, n);
    if p < pos { SameIndex(p, pos, n); }
    if pos < p { SameIndex(pos, p, n); }
  }

  lemma IdleAt(s: State, t: nat)
    requires AllIdle(s) && t < |s.threads|
    ensures s.threads[t] == Idle
  {
    assert s.threads[t] in s.threads;
  }

  lemma RunsAfter(s: State, t: nat, k: nat)
    requires Inv(s) && Shape(s) && t < |s.threads| && k > 0
    ensures Inv(Access(s, t, false))
    ensures After(s, seq(k, _ => Run(t, false))) == After(Access(s, t, false), seq(k - 1, _ => Run(t, false)))
  {
    hide Inv, Access;
    AccessKeeps(s, t, false);
    assert seq(k, _ => Run(t, false))[1..] == seq(k - 1, _ => Run(t, false));
  }

  /** The whole call, given the thread's place after each of its accesses. */
  lemma CallSteps(s: State, call: Move, s0: State, s1: State, s2: State, s3: State, s4: State)
    requires Inv(s) && Shape(s) && call.t < |s.threads| && !call.Run? && s0 == Step(s, call)
    requires Shape(s0) && |s0.threads| == |s.threads| && s1 == Access(s0, call.t, false)
    requires Shape(s1) && |s1.threads| == |s.threads| && s2 == Access(s1, call.t, false)
    requires Shape(s2) && |s2.threads| == |s.threads| && s3 == Access(s2, call.t, false)
    requires Shape(s3) && |s3.threads| == |s.threads| && s4 == Access(s3, call.t, false)
    requires Shape(s4) && |s4.threads| == |s.threads|
    ensures After(s, CallAlone(call)) == Access(s4, call.t, false)
  {
    hide Inv, Access;
    var t := call.t;
    StepKeeps(s, call);
    assert CallAlone(call)[1..] == seq(5, _ => Run(t, false));
    RunsAfter(s0, t, 5);
    RunsAfter(s1, t, 4);
    RunsAfter(s2, t, 3);
    RunsAfter(s3, t, 2);
    RunsAfter(s4, t, 1);
  }

  lemma EnqueueSteps(s: State, t: nat, v: int) returns (s0: State, s1: State, s2: State, s3: State, s4: State)
    requires Shape(s) && t < |s.threads| && s.threads[t] == Idle && Free(s, s.enqueuePos)
    ensures s0 == Step(s, Enqueue(t, v)) && Shape(s0) && |s0.threads| == |s.threads| && s1 == Access(s0, t, false)
    ensures Shape(s1) && |s1.threads| == |s.threads| && s2 == Access(s1, t, false)
    ensures Shape(s2) && |s2.threads| == |s.threads| && s3 == Access(s2, t, false)
    ensures Shape(s3) && |s3.threads| == |s.threads| && s4 == Access(s3, t, false)
    ensures Shape(s4) && |s4.threads| == |s.threads| && |s4.cells| == |s.cells|
    ensures s4.threads[t] == PublishData(s.enqueuePos) && s4.enqueuePos == s.enqueuePos + 1
    ensures s4.values == s.values + [v] && s4.cells[Index(s, s.enqueuePos)].data == v
  {
    s0 := Step(s, Enqueue(t, v));
    s1 := SetThread(s, t, LoadSequence(v, s.enqueuePos));
    s2 := SetThread(s, t, ClaimEnqueue(v, s.enqueuePos));
    s3 := Access(s2, t, false);
    assert s3.threads[t] == WriteData(v, s.enqueuePos) && s3.cells == s.cells;
    s4 := Access(s3, t, false);
  }

  lemma PublishStep(s: State, t: nat, pos: int)
    requires Shape(s) && t < |s.threads| && s.threads[t] == PublishData(pos)
    ensures var r := Access(s, t, false);
            && r == s.(threads := r.threads, cells := r.cells) && |r.threads| == |s.threads| && r.threads[t] == Idle
            && |r.cells| == |s.cells| && r.cells[Index(s, pos)] == Cell(pos + 1, s.cells[Index(s, pos)].data)
  {
  }

  /** On a quiet queue that is not full, enqueue run alone claims the next position and publishes its value there. */
  lemma EnqueueAlone(s: State, t: nat, v: int)
    requires Inv(s) && AllIdle(s) && t < |s.threads| && s.enqueuePos < s.dequeuePos + |s.cells|
    ensures var pos, r := s.enqueuePos, After(s, CallAlone(Enqueue(t, v)));
            && |r.threads| == |s.threads| && |r.cells| == |s.cells| >= 2
            && r.threads[t] == Idle && r.enqueuePos == pos + 1 && r.values == s.values + [v]
            && r.cells[Index(s, pos)] == Cell(pos + 1, v)
  {
    QuietFree(s);
    InvShape(s);
    IdleAt(s, t);
    hide Inv, AllIdle, After, CallAlone, Access, Step, Free, Full;
    var s0, s1, s2, s3, s4 := EnqueueSteps(s, t, v);
    CallSteps(s, Enqueue(t, v), s0, s1, s2, s3, s4);
    PublishStep(s4, t, s.enqueuePos);
  }

  lemma DequeueSteps(s: State, t: nat) returns (s0: State, s1: State, s2: State, s3: State, s4: State)
    requires Shape(s) && t < |s.threads| && s.threads[t] == Idle && Published(s, s.dequeuePos)
    ensures s0 == Step(s, Dequeue(t)) && Shape(s0) && |s0.threads| == |s.threads| && s1 == Access(s0, t, false)
    ensures Shape(s1) && |s1.threads| == |s.threads| && s2 == Access(s1, t, false)
    ensures Shape(s2) && |s2.threads| == |s.threads| && s3 == Access(s2, t, false)
    ensures Shape(s3) && |s3.threads| == |s.threads| && s4 == Access(s3, t, false)
    ensures Shape(s4) && |s4.threads| == |s.threads| && s4.cells == s.cells && s4.results == s.results
    ensures s4.threads[t] == ReleaseCell(s.dequeuePos, s.cells[Index(s, s.dequeuePos)].data)
    ensures s4.dequeuePos == s.dequeuePos + 1
  {
    s0 := Step(s, Dequeue(t));
    s1 := SetThread(s, t, LoadFilled(s.dequeuePos));
    s2 := SetThread(s, t, ClaimDequeue(s.dequeuePos));
    s3 := Access(s2, t, false);
    assert s3.threads[t] == ReadData(s.dequeuePos) && s3.cells == s.cells;
    s4 := Access(s3, t, false);
  }

  lemma ReleaseStep(s: State, t: nat, pos: int, got: int)
    requires Shape(s) && t < |s.threads| && s.threads[t] == ReleaseCell(pos, got)
    ensures var r := Access(s, t, false);
            && r == s.(threads := r.threads, cells := r.cells, results := s.results[pos := got])
            && |r.threads| == |s.threads| && r.threads[t] == Idle
            && |r.cells| == |s.cells| && r.cells[Index(s, pos)].sequence == pos + |s.cells|
  {
  }

  /** On a quiet queue that is not empty, dequeue run alone returns the oldest value and releases its cell. */
  lemma DequeueAlone(s: State, t: nat)
    requires Inv(s) && AllIdle(s) && t < |s.threads| && s.dequeuePos < s.enqueuePos
    ensures var pos, r := s.dequeuePos, After(s, CallAlone(Dequeue(t)));
            && |r.threads| == |s.threads| && |r.cells| == |s.cells| >= 2 && pos < |s.values|
            && r.threads[t] == Idle && r.dequeuePos == pos + 1 && r.results == s.results[pos := s.values[pos]]
            && r.cells[Index(s, pos)].sequence == pos + |s.cells|
  {
    assert forall th :: th in s.threads ==> !Owner(th);
    QuietContents(s, s.dequeuePos);
    InvShape(s);
    IdleAt(s, t);
    hide Inv, AllIdle, After, CallAlone, Access, Step, Published;
    var s0, s1, s2, s3, s4 := DequeueSteps(s, t);
    CallSteps(s, Dequeue(t), s0, s1, s2, s3, s4);
    ReleaseStep(s4, t, s.dequeuePos, s.cells[Index(s, s.dequeuePos)].data);
  }
}
