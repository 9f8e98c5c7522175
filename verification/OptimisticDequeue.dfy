/**
 * The counters of ConcurrentQueue's ExplicitProducer::dequeue (libraries/moodycamel/concurrentqueue.h:1882-1978):
 * one producer, any number of consumers, one atomic access a step, indices unbounded.
 */
module OptimisticDequeue {

  /** Where a consumer is, named after its next access; `my` is its ticket, myDequeueCount. */
  datatype Consumer =
    | Idle
    | LoadTail
    | LoadOvercommit(tail: int)
    | LoadOptimistic(tail: int, overcommit: int)
    | TakeTicket(overcommit: int)
    | ReloadTail(overcommit: int, my: int)
    | TakeIndex(my: int)
    | AddOvercommit(my: int)

  /** What became of a ticket; kept for the proof, read by no step. */
  datatype Ticket = Pending | Passed | Failed | Undone | Taken(index: int)

  datatype State = State(tailIndex: int, headIndex: int, optimisticCount: int, overcommit: int,
                         consumers: seq<Consumer>, tickets: seq<Ticket>, takers: seq<int>)

  datatype Move = Enqueue(n: nat) | Dequeue(c: nat) | Run(c: nat)

  function Note(s: State, my: int, k: Ticket): State {
    if 0 <= my < |s.tickets| then s.(tickets := s.tickets[my := k]) else s
  }

  function At(s: State, c: nat, next: Consumer): State
    requires c < |s.consumers|
  {
    s.(consumers := s.consumers[c := next])
  }

  function Access(s: State, c: nat): State
    requires c < |s.consumers|
  {
    match s.consumers[c]
    case Idle => s
    case LoadTail => At(s, c, LoadOvercommit(s.tailIndex))
    case LoadOvercommit(tail) => At(s, c, LoadOptimistic(tail, s.overcommit))
    case LoadOptimistic(tail, over) => At(s, c, if s.optimisticCount - over < tail then TakeTicket(over) else Idle)
    case TakeTicket(over) =>
      At(s, c, ReloadTail(over, s.optimisticCount)).(
        optimisticCount := s.optimisticCount + 1, tickets := s.tickets + [Pending])
    case ReloadTail(over, my) =>
      if my - over < s.tailIndex then Note(At(s, c, TakeIndex(my)), my, Passed)
      else Note(At(s, c, AddOvercommit(my)), my, Failed)
    case TakeIndex(my) =>
      Note(At(s, c, Idle), my, Taken(s.headIndex)).(headIndex := s.headIndex + 1, takers := s.takers + [my])
    case AddOvercommit(my) => Note(At(s, c, Idle), my, Undone).(overcommit := s.overcommit + 1)
  }

  /** The producer publishes any number of elements; a consumer calls dequeue, or makes its next access. */
  function Step(s: State, m: Move): State {
    match m
    case Enqueue(n) => s.(tailIndex := s.tailIndex + n)
    case Dequeue(c) => if c < |s.consumers| && s.consumers[c] == Idle then At(s, c, LoadTail) else s
    case Run(c) => if c < |s.consumers| then Access(s, c) else s
  }

  function After(s: State, ms: seq<Move>): State
    decreases |ms|
  {
    if ms == [] then s else After(Step(s, ms[0]), ms[1..])
  }

  function Begin(consumers: nat): State {
    State(0, 0, 0, 0, seq(consumers, _ => Idle), [], [])
  }

  // ---- counting tickets ----

  function CountUndone(ts: seq<Ticket>): nat {
    if ts == [] then 0 else CountUndone(ts[..|ts| - 1]) + if ts[|ts| - 1] == Undone then 1 else 0
  }

  /** Tickets that were let through to an index, taken or about to be. */
  function CountThrough(ts: seq<Ticket>): nat {
    if ts == [] then 0
    else CountThrough(ts[..|ts| - 1]) + if ts[|ts| - 1] == Passed || ts[|ts| - 1].Taken? then 1 else 0
  }

  function CountTaken(ts: seq<Ticket>): nat {
    if ts == [] then 0 else CountTaken(ts[..|ts| - 1]) + if ts[|ts| - 1].Taken? then 1 else 0
  }

  lemma {:induction false} CountsBounded(ts: seq<Ticket>)
    ensures CountThrough(ts) + CountUndone(ts) <= |ts| && CountTaken(ts) <= CountThrough(ts)
  {
    if ts != [] { CountsBounded(ts[..|ts| - 1]); }
  }

  /** What changing ticket k does to the counts. */
  lemma {:induction false} CountsChange(ts: seq<Ticket>, k: nat, to: Ticket)
    requires k < |ts| && ts[k] != Undone && !ts[k].Taken?
    ensures CountUndone(ts[k := to]) == CountUndone(ts) + (if to == Undone then 1 else 0)
    ensures CountTaken(ts[k := to]) == CountTaken(ts) + (if to.Taken? then 1 else 0)
  {
    var n := |ts| - 1;
    if k < n {
      CountsChange(ts[..n], k, to);
      assert ts[k := to][..n] == ts[..n][k := to];
    } else {
      assert ts[k := to][..n] == ts[..n];
    }
  }

  lemma {:induction false} UndoneGrows(ts: seq<Ticket>, k: nat, to: Ticket, m: nat)
    requires k < |ts| && ts[k] != Undone && m <= |ts|
    ensures CountUndone(ts[..m]) <= CountUndone(ts[k := to][..m])
    decreases m
  {
    if m > 0 {
      UndoneGrows(ts, k, to, m - 1);
      assert ts[..m][..m - 1] == ts[..m - 1] && ts[k := to][..m][..m - 1] == ts[k := to][..m - 1];
    }
  }

  /** Ticket m leaves room below `tail` for itself once the undone tickets before it are discounted. */
  predicate Room(ts: seq<Ticket>, m: nat, tail: int)
    requires m < |ts|
  {
    m + 1 - CountUndone(ts[..m]) <= tail
  }

  predicate Roomy(ts: seq<Ticket>, tail: int) {
    forall m: nat {:trigger Room(ts, m, tail)} ::
      m < |ts| && (ts[m] == Passed || ts[m].Taken?) ==> Room(ts, m, tail)
  }

  /** The last ticket let through bounds how many were. */
  lemma {:induction false} ThroughBounded(ts: seq<Ticket>, tail: int)
    requires Roomy(ts, tail) && tail >= 0
    ensures CountThrough(ts) <= tail
  {
    if ts != [] {
      var n := |ts| - 1;
      var before := ts[..n];
      if ts[n] == Passed || ts[n].Taken? {
        assert Room(ts, n, tail);
        CountsBounded(before);
      } else {
        forall m: nat | m < n && (before[m] == Passed || before[m].Taken?) ensures Room(before, m, tail) {
          assert Room(ts, m, tail) && before[..m] == ts[..m];
        }
        ThroughBounded(before, tail);
      }
    }
  }

  // ---- the invariant ----

  /** A consumer's ticket is in the state its place in the code says, and its overcommit value is old enough. */
  predicate ConsumerOk(s: State, c: Consumer) {
    match c
    case LoadOptimistic(_, over) => 0 <= over <= s.overcommit
    case TakeTicket(over) => 0 <= over <= s.overcommit
    case ReloadTail(over, my) =>
      0 <= my < |s.tickets| && s.tickets[my] == Pending && over <= CountUndone(s.tickets[..my])
    case TakeIndex(my) => 0 <= my < |s.tickets| && s.tickets[my] == Passed
    case AddOvercommit(my) => 0 <= my < |s.tickets| && s.tickets[my] == Failed
    case _ => true
  }

  predicate HoldsTicket(c: Consumer) {
    c.ReloadTail? || c.TakeIndex? || c.AddOvercommit?
  }

  predicate Holds(c: Consumer, k: int) {
    HoldsTicket(c) && c.my == k
  }

  predicate Apart(a: Consumer, b: Consumer) {
    HoldsTicket(a) && HoldsTicket(b) ==> a.my != b.my
  }

  /** A ticket is taken, with its own index, or undone, or a consumer still holds it. */
  ghost predicate TicketOk(s: State, k: int)
    requires 0 <= k < |s.tickets|
  {
    match s.tickets[k]
    case Taken(i) => 0 <= i < |s.takers| && s.takers[i] == k
    case Undone => true
    case _ => exists c :: 0 <= c < |s.consumers| && Holds(s.consumers[c], k)
  }

  predicate TakerOk(s: State, i: int)
    requires 0 <= i < |s.takers|
  {
    0 <= s.takers[i] < |s.tickets| && s.tickets[s.takers[i]] == Taken(i)
  }

  ghost predicate Inv(s: State) {
    && s.optimisticCount == |s.tickets| && s.headIndex == |s.takers| && s.tailIndex >= 0
    && s.overcommit == CountUndone(s.tickets) && s.headIndex == CountTaken(s.tickets)
    && Roomy(s.tickets, s.tailIndex)
    && (forall c {:trigger ConsumerOk(s, s.consumers[c])} :: 0 <= c < |s.consumers| ==> ConsumerOk(s, s.consumers[c]))
    && (forall c, d {:trigger Apart(s.consumers[c], s.consumers[d])} ::
          0 <= c < |s.consumers| && 0 <= d < |s.consumers| && c != d ==> Apart(s.consumers[c], s.consumers[d]))
    && (forall k {:trigger TicketOk(s, k)} :: 0 <= k < |s.tickets| ==> TicketOk(s, k))
    && (forall i {:trigger TakerOk(s, i)} :: 0 <= i < |s.takers| ==> TakerOk(s, i))
  }

  predicate OthersSame(s: State, s': State, c: nat) {
    c < |s.consumers| == |s'.consumers| && forall d :: 0 <= d < |s.consumers| && d != c ==> s'.consumers[d] == s.consumers[d]
  }

  lemma ApartStays(s: State, s': State, c: nat)
    requires Inv(s) && OthersSame(s, s', c)
    requires var b := s'.consumers[c]; HoldsTicket(b) ==> Holds(s.consumers[c], b.my) || b.my == |s.tickets|
    ensures forall a, d {:trigger Apart(s'.consumers[a], s'.consumers[d])} ::
      0 <= a < |s'.consumers| && 0 <= d < |s'.consumers| && a != d ==> Apart(s'.consumers[a], s'.consumers[d])
  {
    forall a, d | 0 <= a < |s'.consumers| && 0 <= d < |s'.consumers| && a != d
      ensures Apart(s'.consumers[a], s'.consumers[d])
    {
      assert Apart(s.consumers[a], s.consumers[d]);
      assert ConsumerOk(s, s.consumers[a]) && ConsumerOk(s, s.consumers[d]);
    }
  }

  /** A step that changes neither the counters nor the tickets. */
  lemma LocalKeeps(s: State, c: nat, next: Consumer)
    requires Inv(s) && c < |s.consumers| && !HoldsTicket(s.consumers[c]) && !HoldsTicket(next) && ConsumerOk(s, next)
    ensures Inv(At(s, c, next))
  {
    var s' := At(s, c, next);
    ApartStays(s, s', c);
    forall d | 0 <= d < |s'.consumers| ensures ConsumerOk(s', s'.consumers[d]) {
      assert ConsumerOk(s, s.consumers[d]);
    }
    forall k | 0 <= k < |s'.tickets| ensures TicketOk(s', k) {
      assert TicketOk(s, k);
      HolderStays(s, s', c, k);
    }
    forall i | 0 <= i < |s'.takers| ensures TakerOk(s', i) {
      assert TakerOk(s, i);
    }
  }

  lemma HolderStays(s: State, s': State, c: nat, k: int)
    requires OthersSame(s, s', c) && (Holds(s.consumers[c], k) ==> Holds(s'.consumers[c], k))
    ensures (exists d :: 0 <= d < |s.consumers| && Holds(s.consumers[d], k)) ==>
            (exists d :: 0 <= d < |s'.consumers| && Holds(s'.consumers[d], k))
  {
  }

  lemma EnqueueKeeps(s: State, n: nat)
    requires Inv(s)
    ensures Inv(Step(s, Enqueue(n)))
  {
    var s' := Step(s, Enqueue(n));
    forall m: nat | m < |s'.tickets| && (s'.tickets[m] == Passed || s'.tickets[m].Taken?)
      ensures Room(s'.tickets, m, s'.tailIndex)
    {
      assert Room(s.tickets, m, s.tailIndex);
    }
    forall d | 0 <= d < |s'.consumers| ensures ConsumerOk(s', s'.consumers[d]) {
      assert ConsumerOk(s, s.consumers[d]);
    }
    forall a, d | 0 <= a < |s'.consumers| && 0 <= d < |s'.consumers| && a != d
      ensures Apart(s'.consumers[a], s'.consumers[d])
    {
      assert Apart(s.consumers[a], s.consumers[d]);
    }
    forall k | 0 <= k < |s'.tickets| ensures TicketOk(s', k) {
      assert TicketOk(s, k);
    }
    forall i | 0 <= i < |s'.takers| ensures TakerOk(s', i) {
      assert TakerOk(s, i);
    }
  }

  lemma TakeTicketKeeps(s: State, c: nat)
    requires Inv(s) && c < |s.consumers| && s.consumers[c].TakeTicket?
    ensures Inv(Access(s, c))
  {
    var s' := Access(s, c);
    var n := |s.tickets|;
    assert s'.tickets[..n] == s.tickets;
    ApartStays(s, s', c);
    assert ConsumerOk(s, s.consumers[c]);
    forall m: nat | m < |s'.tickets| && (s'.tickets[m] == Passed || s'.tickets[m].Taken?)
      ensures Room(s'.tickets, m, s'.tailIndex)
    {
      assert Room(s.tickets, m, s.tailIndex) && s'.tickets[..m] == s.tickets[..m];
    }
    forall d | 0 <= d < |s'.consumers| ensures ConsumerOk(s', s'.consumers[d]) {
      assert ConsumerOk(s, s.consumers[d]);
      var e := s'.consumers[d];
      assert e.ReloadTail? && e.my < n ==> s'.tickets[..e.my] == s.tickets[..e.my];
    }
    assert Holds(s'.consumers[c], n);
    forall k | 0 <= k < |s'.tickets| ensures TicketOk(s', k) {
      assert k < n ==> TicketOk(s, k);
      HolderStays(s, s', c, k);
    }
    forall i | 0 <= i < |s'.takers| ensures TakerOk(s', i) {
      assert TakerOk(s, i);
    }
  }

  /** A consumer moves its ticket on, from a state that is neither undone nor taken. */
  lemma NoteKeeps(s: State, s': State, c: nat, my: nat, to: Ticket)
    requires Inv(s) && OthersSame(s, s', c) && Holds(s.consumers[c], my) && my < |s.tickets|
    requires s.tickets[my] != Undone && !s.tickets[my].Taken? && s'.tickets == s.tickets[my := to]
    requires s'.optimisticCount == s.optimisticCount && s'.tailIndex == s.tailIndex
    requires s'.overcommit == s.overcommit + (if to == Undone then 1 else 0)
    requires to.Taken? ==> to.index == s.headIndex
    requires s'.takers == (if to.Taken? then s.takers + [my] else s.takers)
    requires s'.headIndex == |s'.takers|
    requires ConsumerOk(s', s'.consumers[c])
    requires (if to.Taken? || to == Undone then !HoldsTicket(s'.consumers[c]) else Holds(s'.consumers[c], my))
    requires to == Passed || to.Taken? ==> Room(s.tickets, my, s.tailIndex)
    ensures Inv(s')
  {
    ApartStays(s, s', c);
    CountsChange(s.tickets, my, to);
    forall m: nat | m < |s'.tickets| && (s'.tickets[m] == Passed || s'.tickets[m].Taken?)
      ensures Room(s'.tickets, m, s'.tailIndex)
    {
      assert Room(s.tickets, m, s.tailIndex);
      UndoneGrows(s.tickets, my, to, m);
    }
    forall d | 0 <= d < |s'.consumers| ensures ConsumerOk(s', s'.consumers[d]) {
      assert ConsumerOk(s, s.consumers[d]);
      assert d != c ==> Apart(s.consumers[c], s.consumers[d]);
      var e := s'.consumers[d];
      if d != c && e.ReloadTail? { UndoneGrows(s.tickets, my, to, e.my); }
    }
    forall k | 0 <= k < |s'.tickets| ensures TicketOk(s', k) {
      assert TicketOk(s, k);
      HolderStaysBut(s, s', c, my, k);
    }
    forall i | 0 <= i < |s'.takers| ensures TakerOk(s', i) {
      assert i < |s.takers| ==> TakerOk(s, i);
    }
  }

  lemma HolderStaysBut(s: State, s': State, c: nat, my: int, k: int)
    requires OthersSame(s, s', c) && Holds(s.consumers[c], my)
    ensures k != my && (exists d :: 0 <= d < |s.consumers| && Holds(s.consumers[d], k)) ==>
            (exists d :: 0 <= d < |s'.consumers| && Holds(s'.consumers[d], k))
    ensures Holds(s'.consumers[c], k) ==> exists d :: 0 <= d < |s'.consumers| && Holds(s'.consumers[d], k)
  {
    if k != my { HolderStays(s, s', c, k); }
  }

  lemma AccessKeeps(s: State, c: nat)
    requires Inv(s) && c < |s.consumers|
    ensures Inv(Access(s, c))
  {
    hide Roomy, TicketOk, TakerOk;
    assert ConsumerOk(s, s.consumers[c]);
    var s' := Access(s, c);
    var th := s.consumers[c];
    CountsBounded(s.tickets);
    match th {
      case Idle =>
      case TakeTicket(_) => TakeTicketKeeps(s, c);
      case ReloadTail(over, my) =>
        NoteKeeps(s, s', c, my, if my - over < s.tailIndex then Passed else Failed);
      case TakeIndex(my) =>
        assert Room(s.tickets, my, s.tailIndex) by { PassedRoom(s, my); }
        NoteKeeps(s, s', c, my, Taken(s.headIndex));
      case AddOvercommit(my) => NoteKeeps(s, s', c, my, Undone);
      case _ => LocalKeeps(s, c, s'.consumers[c]);
    }
  }

  lemma PassedRoom(s: State, my: nat)
    requires Roomy(s.tickets, s.tailIndex) && my < |s.tickets| && s.tickets[my] == Passed
    ensures Room(s.tickets, my, s.tailIndex)
  {
  }

  lemma StepKeeps(s: State, m: Move)
    requires Inv(s)
    ensures Inv(Step(s, m))
  {
    hide Inv, Access;
    match m {
      case Enqueue(n) => EnqueueKeeps(s, n);
      case Dequeue(c) => if c < |s.consumers| && s.consumers[c] == Idle { LocalKeeps(s, c, LoadTail); }
      case Run(c) => if c < |s.consumers| { AccessKeeps(s, c); }
    }
  }

  lemma {:induction false} RunKeeps(s: State, ms: seq<Move>)
    requires Inv(s)
    ensures Inv(After(s, ms))
    decreases |ms|
  {
    hide Inv, Step;
    if ms != [] {
      StepKeeps(s, ms[0]);
      RunKeeps(Step(s, ms[0]), ms[1..]);
    }
  }

  // ---- what every run keeps ----

  /**
   * For any interleaving, with overcommit values as stale as they may be: headIndex never passes tailIndex, every
   * index below headIndex was handed to exactly one ticket, and the code's assertion overcommit <= myDequeueCount holds.
   */
  lemma NeverOverruns(consumers: nat, ms: seq<Move>)
    ensures var s := After(Begin(consumers), ms);
            && 0 <= s.headIndex <= s.tailIndex && |s.takers| == s.headIndex
            && (forall i, j :: 0 <= i < j < |s.takers| ==> s.takers[i] != s.takers[j])
            && (forall i :: 0 <= i < |s.takers| ==>
                  0 <= s.takers[i] < |s.tickets| && s.tickets[s.takers[i]] == Taken(i))
            && (forall c :: 0 <= c < |s.consumers| && s.consumers[c].ReloadTail? ==>
                  s.consumers[c].overcommit <= s.consumers[c].my)
            && (forall c :: 0 <= c < |s.consumers| && s.consumers[c].TakeIndex? ==> s.headIndex < s.tailIndex)
  {
    assert Inv(Begin(consumers));
    RunKeeps(Begin(consumers), ms);
    hide After;
    var s := After(Begin(consumers), ms);
    ThroughBounded(s.tickets, s.tailIndex);
    CountsBounded(s.tickets);
    forall i | 0 <= i < |s.takers| ensures 0 <= s.takers[i] < |s.tickets| && s.tickets[s.takers[i]] == Taken(i) {
      assert TakerOk(s, i);
    }
    forall c | 0 <= c < |s.consumers| && s.consumers[c].ReloadTail? ensures s.consumers[c].overcommit <= s.consumers[c].my {
      assert ConsumerOk(s, s.consumers[c]);
      CountsBounded(s.tickets[..s.consumers[c].my]);
    }
    forall c | 0 <= c < |s.consumers| && s.consumers[c].TakeIndex? ensures s.headIndex < s.tailIndex {
      assert ConsumerOk(s, s.consumers[c]);
      PassedNotTaken(s.tickets, s.consumers[c].my);
    }
  }

  lemma {:induction false} PassedNotTaken(ts: seq<Ticket>, k: nat)
    requires k < |ts| && ts[k] == Passed
    ensures CountTaken(ts) < CountThrough(ts)
  {
    var n := |ts| - 1;
    if k < n {
      PassedNotTaken(ts[..n], k);
    } else {
      CountsBounded(ts[..n]);
    }
  }

  /**
   * Once every call has returned the counters agree with the indices again, so the next call's first test passes
   * exactly if an element is left.
   */
  lemma QuietCounters(consumers: nat, ms: seq<Move>)
    ensures var s := After(Begin(consumers), ms);
            (forall c :: 0 <= c < |s.consumers| ==> s.consumers[c] == Idle) ==>
              && s.optimisticCount - s.overcommit == s.headIndex
              && (s.optimisticCount - s.overcommit < s.tailIndex <==> s.headIndex < s.tailIndex)
  {
    assert Inv(Begin(consumers));
    RunKeeps(Begin(consumers), ms);
    hide After;
    var s := After(Begin(consumers), ms);
    if forall c :: 0 <= c < |s.consumers| ==> s.consumers[c] == Idle {
      forall k | 0 <= k < |s.tickets| ensures s.tickets[k] == Undone || s.tickets[k].Taken? {
        assert TicketOk(s, k);
      }
      AllSettled(s.tickets);
    }
  }

  lemma {:induction false} AllSettled(ts: seq<Ticket>)
    requires forall k :: 0 <= k < |ts| ==> ts[k] == Undone || ts[k].Taken?
    ensures CountUndone(ts) + CountTaken(ts) == |ts|
  {
    if ts != [] { AllSettled(ts[..|ts| - 1]); }
  }

  // ---- when a dequeue succeeds ----

  predicate AllIdle(s: State) {
    forall c :: 0 <= c < |s.consumers| ==> s.consumers[c] == Idle
  }

  /** A dequeue whose consumer makes all its accesses with no other thread's in between. */
  function CallAlone(c: nat): seq<Move> {
    [Dequeue(c), Run(c), Run(c), Run(c), Run(c), Run(c), Run(c)]
  }

  lemma CallAfter(s: State, c: nat)
    ensures After(s, CallAlone(c))
            == var s3 := Step(Step(Step(Step(s, Dequeue(c)), Run(c)), Run(c)), Run(c));
               Step(Step(Step(s3, Run(c)), Run(c)), Run(c))
  {
    hide Step;
    var s3 := Step(Step(Step(Step(s, Dequeue(c)), Run(c)), Run(c)), Run(c));
    var late := [Run(c), Run(c), Run(c)];
    var runs := [Run(c)] + ([Run(c)] + ([Run(c)] + late));
    assert CallAlone(c) == [Dequeue(c)] + runs;
    AfterFirst(s, Dequeue(c), runs);
    AfterFirst(Step(s, Dequeue(c)), Run(c), [Run(c)] + ([Run(c)] + late));
    AfterFirst(Step(Step(s, Dequeue(c)), Run(c)), Run(c), [Run(c)] + late);
    AfterFirst(Step(Step(Step(s, Dequeue(c)), Run(c)), Run(c)), Run(c), late);
    assert late == [Run(c)] + ([Run(c)] + ([Run(c)] + []));
    AfterFirst(s3, Run(c), [Run(c)] + ([Run(c)] + []));
    AfterFirst(Step(s3, Run(c)), Run(c), [Run(c)] + []);
    AfterFirst(Step(Step(s3, Run(c)), Run(c)), Run(c), []);
  }

  lemma AfterFirst(s: State, m: Move, ms: seq<Move>)
    ensures After(s, [m] + ms) == After(Step(s, m), ms)
  {
    hide Step;
    assert ([m] + ms)[1..] == ms;
  }

  lemma QuietCount(s: State)
    requires Inv(s) && AllIdle(s)
    ensures s.optimisticCount - s.overcommit == s.headIndex
  {
    forall k | 0 <= k < |s.tickets| ensures s.tickets[k] == Undone || s.tickets[k].Taken? {
      assert TicketOk(s, k);
    }
    AllSettled(s.tickets);
  }

  /** The first three accesses decide whether to take a ticket. */
  lemma FirstTest(s: State, c: nat)
    requires c < |s.consumers| && s.consumers[c] == Idle
    ensures Step(Step(Step(Step(s, Dequeue(c)), Run(c)), Run(c)), Run(c))
            == At(s, c, if s.optimisticCount - s.overcommit < s.tailIndex then TakeTicket(s.overcommit) else Idle)
  {
    var s0 := Step(s, Dequeue(c));
    assert s0 == At(s, c, LoadTail);
    assert Step(s0, Run(c)) == At(s, c, LoadOvercommit(s.tailIndex));
    assert Step(Step(s0, Run(c)), Run(c)) == At(s, c, LoadOptimistic(s.tailIndex, s.overcommit));
  }

  /** The last three, with nobody else about, use it. */
  lemma TicketUsed(s: State, c: nat)
    requires c < |s.consumers| && s.optimisticCount == |s.tickets| && s.consumers[c] == TakeTicket(s.overcommit)
    requires s.optimisticCount - s.overcommit < s.tailIndex
    ensures var r := Step(Step(Step(s, Run(c)), Run(c)), Run(c));
            && r.consumers == s.consumers[c := Idle] && r.headIndex == s.headIndex + 1
            && r.tickets == s.tickets + [Taken(s.headIndex)] && r.takers == s.takers + [|s.tickets|]
            && r.overcommit == s.overcommit && r.tailIndex == s.tailIndex
  {
    var s1 := Step(s, Run(c));
    var s2 := Step(s1, Run(c));
    assert s2.consumers[c] == TakeIndex(|s.tickets|);
  }

  /**
   * When no call is in progress, a dequeue run alone takes the element at headIndex if there is one, and otherwise
   * returns without changing a counter.
   */
  lemma DequeueAlone(s: State, c: nat)
    requires Inv(s) && AllIdle(s) && c < |s.consumers|
    ensures var r := After(s, CallAlone(c));
            && r.consumers == s.consumers
            && if s.headIndex < s.tailIndex then
                 && r.headIndex == s.headIndex + 1 && r.tickets == s.tickets + [Taken(s.headIndex)]
                 && r.takers == s.takers + [|s.tickets|]
               else r == s
  {
    QuietCount(s);
    CallAfter(s, c);
    FirstTest(s, c);
    assert s.consumers[c] == Idle;
    if s.headIndex < s.tailIndex {
      TicketUsed(At(s, c, TakeTicket(s.overcommit)), c);
    } else {
      assert At(s, c, Idle) == s;
    }
  }

  /** In every reachable quiet state, so every element is handed out as soon as one call runs undisturbed. */
  lemma LastElementIsTaken(consumers: nat, ms: seq<Move>, c: nat)
    requires var s := After(Begin(consumers), ms); AllIdle(s) && c < |s.consumers| && s.headIndex < s.tailIndex
    ensures var s := After(Begin(consumers), ms);
            var r := After(s, CallAlone(c));
            r.headIndex == s.headIndex + 1 && |r.tickets| == |s.tickets| + 1 && r.tickets[|s.tickets|] == Taken(s.headIndex)
  {
    assert Inv(Begin(consumers));
    RunKeeps(Begin(consumers), ms);
    hide After, Inv, CallAlone;
    DequeueAlone(After(Begin(consumers), ms), c);
  }

  lemma {:induction false} UndonePrefix(ts: seq<Ticket>, m: nat)
    requires m <= |ts|
    ensures CountUndone(ts[..m]) <= CountUndone(ts)
    decreases |ts| - m
  {
    if m < |ts| {
      UndonePrefix(ts, m + 1);
      assert ts[..m + 1][..m] == ts[..m];
    } else {
      assert ts[..m] == ts;
    }
  }

  /**
   * A ticket refused on an overcommit value that is still current has at least tailIndex tickets before it that are
   * not undone, and a call that gives up at the first test has as many as it saw elements.
   */
  lemma RefusedMeansTaken(s: State, c: nat)
    requires Inv(s) && c < |s.consumers|
    ensures var th, next := s.consumers[c], Access(s, c).consumers[c];
            && (th.ReloadTail? && th.overcommit == s.overcommit && next.AddOvercommit? ==>
                  0 <= th.my < |s.tickets| && th.my - CountUndone(s.tickets[..th.my]) >= s.tailIndex)
            && (th.LoadOptimistic? && th.overcommit == s.overcommit && next == Idle ==>
                  |s.tickets| - CountUndone(s.tickets) >= th.tail)
            && (next == Idle ==>
                  || th == Idle || th.LoadOptimistic? || th.AddOvercommit?
                  || (th.TakeIndex? && Access(s, c).headIndex == s.headIndex + 1))
  {
    assert ConsumerOk(s, s.consumers[c]);
    if s.consumers[c].ReloadTail? { UndonePrefix(s.tickets, s.consumers[c].my); }
  }
}
