/** Every meter's aggregate phase together, with arbitrary delays (ProtocolState_impl.h:87-104, MeterClient.cpp:38-48). */
module TreeRun {
  import opened Crusader
  import opened Groups
  import opened TreeAggregation

  // ---- one meter ----

  datatype Phase = Overlay | Aggregate | Idle

  datatype Meter = Meter(phase: Phase, tree: Tree, buffered: seq<Message>, sent: seq<Message>)

  /**
   * What all meters agree on, the proxy values each ended the overlay with, the meters that have crashed by then, and
   * each meter's failed_meter_ids.
   */
  datatype Setup = Setup(single: bool, length: nat, groups: int, meters: int, held: seq<set<Contribution>>,
                         crashed: set<int>, known: seq<set<int>>)

  /** Every meter knows which of its children have crashed; about others it may be wrong. */
  predicate SetupOk(q: Setup) {
    && Sane(q.groups, q.meters) && |q.held| == |q.known| == q.meters && q.length > 0
    && forall i :: 0 <= i < q.meters ==> KnowsChildren(q, i)
  }

  predicate KnowsChildren(q: Setup, i: int)
    requires Sane(q.groups, q.meters) && 0 <= i < |q.known| == q.meters
  {
    var c := Children(i, q.groups, q.meters);
    (c.0 in q.known[i] <==> c.0 in q.crashed) && (c.1 in q.known[i] <==> c.1 in q.crashed)
  }

  function Live(q: Setup, c: int): int {
    if c in q.crashed then -1 else c
  }

  /** The live child on either side, or -1. */
  function Left(q: Setup, i: int): (c: int)
    requires SetupOk(q) && 0 <= i < q.meters
    ensures c == -1 || (i < c < q.meters && c !in q.crashed)
  {
    ChildrenDiffer(i, q.groups, q.meters);
    Live(q, Children(i, q.groups, q.meters).0)
  }

  function Right(q: Setup, i: int): (c: int)
    requires SetupOk(q) && 0 <= i < q.meters
    ensures c == -1 || (i < c < q.meters && c !in q.crashed && c != Left(q, i))
  {
    ChildrenDiffer(i, q.groups, q.meters);
    Live(q, Children(i, q.groups, q.meters).1)
  }

  /** send_aggregate_if_done. */
  ghost function SendIfDone(q: Setup, m: Meter, held: set<Contribution>): Meter {
    if !DoneReceiving(m.tree) then m
    else
      var out := AddContributions(q.single, m.tree.message, held);
      m.(phase := Idle, tree := m.tree.(message := out), sent := m.sent + [out])
  }

  ghost function Handle(q: Setup, m: Meter, held: set<Contribution>, msg: Message): Meter {
    SendIfDone(q, m.(tree := TreeHandle(q.single, m.tree, msg)), held)
  }

  /** start_aggregate_phase's loop over the buffer: the phase is tested before it, not in it. */
  ghost function HandleBuffered(q: Setup, m: Meter, held: set<Contribution>): Meter
    decreases |m.buffered|
  {
    if m.buffered == [] then m
    else HandleBuffered(q, Handle(q, m.(buffered := m.buffered[1..]), held, m.buffered[0]), held)
  }

  ghost function StartFrom(q: Setup, m: Meter, tree: Tree, held: set<Contribution>): Meter {
    var begun := SendIfDone(q, m.(phase := Aggregate, tree := tree), held);
    if begun.phase == Aggregate then HandleBuffered(q, begun, held) else begun
  }

  ghost function StartAggregate(q: Setup, m: Meter, i: int): Meter
    requires SetupOk(q) && 0 <= i < q.meters
  {
    StartFrom(q, m, NewTree(i, q.groups, q.meters, q.length, q.known[i]), q.held[i])
  }

  ghost function Receive(q: Setup, m: Meter, held: set<Contribution>, msg: Message): Meter {
    if m.phase == Aggregate then Handle(q, m, held, msg) else m.(buffered := m.buffered + [msg])
  }

  // ---- how often a start sends ----

  lemma {:induction false} BufferedSends(q: Setup, m: Meter, held: set<Contribution>)
    ensures var end := HandleBuffered(q, m, held);
            var short := m.tree.needed - m.tree.received;
            |end.sent| == |m.sent| + if |m.buffered| < short then 0
                                     else if short <= 0 then |m.buffered| else |m.buffered| - short + 1
    decreases |m.buffered|
  {
    hide AddContributions, Merge;
    if m.buffered != [] {
      BufferedSends(q, Handle(q, m.(buffered := m.buffered[1..]), held, m.buffered[0]), held);
    }
  }

  /**
   * Starting sends exactly once if no child is needed or just the needed messages are buffered; a message
   * buffered from a child counted as failed makes the loop send again.
   */
  lemma StartSends(q: Setup, m: Meter, tree: Tree, held: set<Contribution>)
    requires tree.received == 0 && m.sent == []
    ensures |StartFrom(q, m, tree, held).sent| == 1 <==> tree.needed <= 0 || |m.buffered| == tree.needed
    ensures |StartFrom(q, m, tree, held).sent| > 1 <==> 0 < tree.needed < |m.buffered|
  {
    hide AddContributions;
    if tree.needed > 0 {
      BufferedSends(q, m.(phase := Aggregate, tree := tree), held);
    }
  }

  // ---- the whole system ----

  /** `delivered[i]` of the messages meter i has sent have reached its parent. */
  datatype System = System(meters: seq<Meter>, delivered: seq<nat>)

  datatype Move = Start(i: int) | Deliver(from: int)

  predicate Shape(q: Setup, s: System) {
    SetupOk(q) && |s.meters| == q.meters && |s.delivered| == q.meters
  }

  predicate Enabled(q: Setup, s: System, m: Move)
    requires Shape(q, s)
  {
    match m
    case Start(i) => 0 <= i < q.meters && i !in q.crashed && s.meters[i].phase == Overlay && s.meters[i].sent == []
    case Deliver(j) =>
      var p := if 0 <= j < q.meters then Parent(j, q.groups, q.meters) else -1;
      0 <= p < q.meters && p !in q.crashed && s.delivered[j] < |s.meters[j].sent|
  }

  ghost function Step(q: Setup, s: System, m: Move): (s': System)
    requires Shape(q, s) && Enabled(q, s, m)
    ensures Shape(q, s')
  {
    match m
    case Start(i) => s.(meters := s.meters[i := StartAggregate(q, s.meters[i], i)])
    case Deliver(j) =>
      var p := Parent(j, q.groups, q.meters);
      System(s.meters[p := Receive(q, s.meters[p], q.held[p], s.meters[j].sent[s.delivered[j]])],
             s.delivered[j := s.delivered[j] + 1])
  }

  ghost predicate IsRun(q: Setup, s: System, ms: seq<Move>)
    requires Shape(q, s)
    decreases |ms|
  {
    ms == [] || (Enabled(q, s, ms[0]) && IsRun(q, Step(q, s, ms[0]), ms[1..]))
  }

  ghost function After(q: Setup, s: System, ms: seq<Move>): (s': System)
    requires Shape(q, s) && IsRun(q, s, ms)
    ensures Shape(q, s')
    decreases |ms|
  {
    if ms == [] then s else After(q, Step(q, s, ms[0]), ms[1..])
  }

  function Begin(q: Setup): System {
    System(seq(|q.held|, _ => Meter(Overlay, Tree(0, 2, Empty(0)), [], [])), seq(|q.held|, _ => 0))
  }

  // ---- what each meter must send ----

  ghost function MergeChild(q: Setup, m: Message, c: int): Message
    requires SetupOk(q) && (c == -1 || 0 <= c < q.meters)
    decreases if c == -1 then 0 else q.meters - c, 2
  {
    if c == -1 then m else Merge(q.single, m, Expected(q, c).body, Expected(q, c).contributors)
  }

  /** The sum over the subtree, as a message. */
  ghost function Expected(q: Setup, i: int): Message
    requires SetupOk(q) && 0 <= i < q.meters
    decreases q.meters - i, 1
  {
    AddContributions(q.single, MergeChild(q, MergeChild(q, Empty(q.length), Left(q, i)), Right(q, i)), q.held[i])
  }

  // ---- the invariant ----

  predicate Arrived(s: System, c: int) {
    0 <= c < |s.delivered| && s.delivered[c] > 0
  }

  /** The intermediate message once the children in `left` and `right` have been merged. */
  ghost function Partial(q: Setup, i: int, left: bool, right: bool): Message
    requires SetupOk(q) && 0 <= i < q.meters
  {
    MergeChild(q, MergeChild(q, Empty(q.length), if left then Left(q, i) else -1), if right then Right(q, i) else -1)
  }

  ghost predicate Waiting(q: Setup, i: int, left: bool, right: bool, buffered: seq<Message>)
    requires SetupOk(q) && 0 <= i < q.meters
  {
    && (left ==> Left(q, i) != -1) && (right ==> Right(q, i) != -1)
    && (!left && !right ==> buffered == [])
    && (left && !right ==> buffered == [Expected(q, Left(q, i))])
    && (!left && right ==> buffered == [Expected(q, Right(q, i))])
    && (left && right ==>
          || buffered == [Expected(q, Left(q, i)), Expected(q, Right(q, i))]
          || buffered == [Expected(q, Right(q, i)), Expected(q, Left(q, i))])
  }

  function Count(left: bool, right: bool): int {
    (if left then 1 else 0) + (if right then 1 else 0)
  }

  ghost predicate MeterOk(q: Setup, i: int, m: Meter, left: bool, right: bool)
    requires SetupOk(q) && 0 <= i < q.meters
  {
    && (left ==> Left(q, i) != -1) && (right ==> Right(q, i) != -1)
    && match m.phase
       case Overlay => m.sent == [] && Waiting(q, i, left, right, m.buffered)
       case Aggregate =>
         && m.sent == [] && m.buffered == []
         && m.tree == Tree(Count(left, right), Needed((Left(q, i), Right(q, i)), {}), Partial(q, i, left, right))
         && !DoneReceiving(m.tree)
       case Idle =>
         && m.sent == [Expected(q, i)]
         && (Left(q, i) != -1 ==> left) && (Right(q, i) != -1 ==> right)
  }

  ghost predicate SystemMeterOk(q: Setup, s: System, i: int)
    requires Shape(q, s) && 0 <= i < q.meters
  {
    && MeterOk(q, i, s.meters[i], Arrived(s, Left(q, i)), Arrived(s, Right(q, i)))
    && s.delivered[i] <= |s.meters[i].sent|
    && (i in q.crashed ==> s.meters[i].phase == Overlay)
  }

  ghost predicate Inv(q: Setup, s: System)
    requires Shape(q, s)
  {
    forall i :: 0 <= i < q.meters ==> SystemMeterOk(q, s, i)
  }

  // ---- one meter keeps the invariant ----

  /** Handling a child's message from the aggregate phase. */
  lemma HandleKeeps(q: Setup, i: int, m: Meter, left: bool, right: bool, isLeft: bool)
    requires SetupOk(q) && 0 <= i < q.meters
    requires MeterOk(q, i, m, left, right) && m.phase == Aggregate
    requires if isLeft then !left && Left(q, i) != -1 else !right && Right(q, i) != -1
    ensures MeterOk(q, i, Handle(q, m, q.held[i], Expected(q, if isLeft then Left(q, i) else Right(q, i))),
                    left || isLeft, right || !isLeft)
  {
    hide AddContributions, Merge, Children, Left, Right;
    var E := Expected(q, if isLeft then Left(q, i) else Right(q, i));
    MergePartial(q, i, left, right, isLeft);
    var m' := Handle(q, m, q.held[i], E);
    PartialExpected(q, i);
  }

  lemma MergePartial(q: Setup, i: int, left: bool, right: bool, isLeft: bool)
    requires SetupOk(q) && 0 <= i < q.meters
    requires if isLeft then !left && Left(q, i) != -1 else !right && Right(q, i) != -1
    ensures var m := Expected(q, if isLeft then Left(q, i) else Right(q, i));
            Merge(q.single, Partial(q, i, left, right), m.body, m.contributors)
            == Partial(q, i, left || isLeft, right || !isLeft)
  {
    hide AddContributions, Merge, Children, Left, Right;
    if isLeft && right && Right(q, i) != -1 {
      MergeCommutes(q.single, Empty(q.length), Expected(q, Left(q, i)), Expected(q, Right(q, i)));
    }
  }

  lemma PartialExpected(q: Setup, i: int)
    requires SetupOk(q) && 0 <= i < q.meters
    ensures Expected(q, i) == AddContributions(q.single, Partial(q, i, Left(q, i) != -1, Right(q, i) != -1), q.held[i])
  {
  }

  lemma NewTreeIs(q: Setup, i: int)
    requires SetupOk(q) && 0 <= i < q.meters
    ensures NewTree(i, q.groups, q.meters, q.length, q.known[i])
         == Tree(0, Needed((Left(q, i), Right(q, i)), {}), Partial(q, i, false, false))
  {
    assert KnowsChildren(q, i);
  }

  lemma BufferedOne(q: Setup, m: Meter, held: set<Contribution>)
    requires |m.buffered| == 1
    ensures HandleBuffered(q, m, held) == Handle(q, m.(buffered := []), held, m.buffered[0])
  {
  }

  lemma BufferedTwo(q: Setup, m: Meter, held: set<Contribution>)
    requires |m.buffered| == 2
    ensures HandleBuffered(q, m, held)
         == Handle(q, Handle(q, m.(buffered := []), held, m.buffered[0]).(buffered := []), held, m.buffered[1])
  {
    hide Merge, AddContributions;
    assert m.buffered[1..] == [m.buffered[1]];
    var next := Handle(q, m.(buffered := m.buffered[1..]), held, m.buffered[0]);
    BufferedOne(q, next, held);
  }

  lemma StartKeeps(q: Setup, i: int, m: Meter, left: bool, right: bool)
    requires SetupOk(q) && 0 <= i < q.meters
    requires MeterOk(q, i, m, left, right) && m.phase == Overlay
    ensures MeterOk(q, i, StartAggregate(q, m, i), left, right)
  {
    hide AddContributions, Merge, Children, Left, Right;
    var tree := NewTree(i, q.groups, q.meters, q.length, q.known[i]);
    var begun := m.(phase := Aggregate, tree := tree);
    NewTreeIs(q, i);
    PartialExpected(q, i);
    if left || right {
      assert MeterOk(q, i, begun.(buffered := []), false, false);
      var first := left && m.buffered[0] == Expected(q, Left(q, i));
      HandleKeeps(q, i, begun.(buffered := []), false, false, first);
      var next := Handle(q, begun.(buffered := []), q.held[i], m.buffered[0]);
      if left && right {
        HandleKeeps(q, i, next.(buffered := []), first, !first, !first);
        BufferedTwo(q, begun, q.held[i]);
      } else {
        BufferedOne(q, begun, q.held[i]);
      }
    }
  }

  // ---- the whole system keeps it ----

  lemma ReceiveKeeps(q: Setup, i: int, m: Meter, left: bool, right: bool, isLeft: bool)
    requires SetupOk(q) && 0 <= i < q.meters && MeterOk(q, i, m, left, right)
    requires if isLeft then !left && Left(q, i) != -1 else !right && Right(q, i) != -1
    ensures MeterOk(q, i, Receive(q, m, q.held[i], Expected(q, if isLeft then Left(q, i) else Right(q, i))),
                    left || isLeft, right || !isLeft)
  {
    hide AddContributions, Merge, Children, Left, Right, Handle, Partial;
    if m.phase == Aggregate {
      HandleKeeps(q, i, m, left, right, isLeft);
    }
  }

  /** The live children of p are the live meters whose parent is p. */
  lemma ChildOf(q: Setup, p: int, c: int)
    requires SetupOk(q) && 0 <= p < q.meters && 0 <= c < q.meters && c !in q.crashed
    ensures Parent(c, q.groups, q.meters) == p <==> c == Left(q, p) || c == Right(q, p)
    ensures Parent(c, q.groups, q.meters) == -1 || 0 <= Parent(c, q.groups, q.meters) < q.meters
  {
    hide Parent, Children;
    TreeIsConsistent(p, c, q.groups, q.meters);
  }

  lemma StepKeeps(q: Setup, s: System, m: Move)
    requires Shape(q, s) && Inv(q, s) && Enabled(q, s, m)
    ensures Inv(q, Step(q, s, m))
  {
    hide Children, Left, Right, Parent, MeterOk, StartAggregate, Receive, Expected;
    var s' := Step(q, s, m);
    match m {
      case Start(i) =>
        assert SystemMeterOk(q, s, i);
        StartStep(q, s, i);
        forall k | 0 <= k < q.meters ensures SystemMeterOk(q, s', k) {
          assert SystemMeterOk(q, s, k);
        }
      case Deliver(j) =>
        var p := Parent(j, q.groups, q.meters);
        DeliverStep(q, s, j);
        forall k | 0 <= k < q.meters ensures SystemMeterOk(q, s', k) {
          assert SystemMeterOk(q, s, k);
          if k != p {
            ChildOf(q, k, j);
          }
        }
    }
  }

  lemma StartStep(q: Setup, s: System, i: int)
    requires Shape(q, s) && Inv(q, s) && Enabled(q, s, Start(i))
    ensures SystemMeterOk(q, Step(q, s, Start(i)), i)
  {
    hide Children, Left, Right, StartAggregate, Waiting, Partial, Expected;
    assert SystemMeterOk(q, s, i);
    StartKeeps(q, i, s.meters[i], Arrived(s, Left(q, i)), Arrived(s, Right(q, i)));
  }

  lemma DeliverStep(q: Setup, s: System, j: int)
    requires Shape(q, s) && Inv(q, s) && Enabled(q, s, Deliver(j))
    ensures SystemMeterOk(q, Step(q, s, Deliver(j)), Parent(j, q.groups, q.meters))
    ensures s.delivered[j] == 0 && |s.meters[j].sent| == 1 && j !in q.crashed
  {
    hide Children, Left, Right, Parent, Receive, Waiting, Partial, Expected;
    var p := Parent(j, q.groups, q.meters);
    assert SystemMeterOk(q, s, j);
    assert SystemMeterOk(q, s, p);
    ChildOf(q, p, j);
    var isLeft := j == Left(q, p);
    ReceiveKeeps(q, p, s.meters[p], Arrived(s, Left(q, p)), Arrived(s, Right(q, p)), isLeft);
    ReceiveSends(q, p, s.meters[p], s.meters[j].sent[0]);
  }

  lemma ReceiveSends(q: Setup, p: int, m: Meter, msg: Message)
    requires SetupOk(q) && 0 <= p < q.meters
    ensures |m.sent| <= |Receive(q, m, q.held[p], msg).sent|
  {
  }

  lemma {:induction false} RunKeeps(q: Setup, s: System, ms: seq<Move>)
    requires Shape(q, s) && Inv(q, s) && IsRun(q, s, ms)
    ensures Inv(q, After(q, s, ms))
    decreases |ms|
  {
    hide Inv, Step, Enabled;
    if ms != [] {
      StepKeeps(q, s, ms[0]);
      RunKeeps(q, Step(q, s, ms[0]), ms[1..]);
    }
  }

  lemma BeginOk(q: Setup)
    requires SetupOk(q)
    ensures Inv(q, Begin(q))
  {
  }

  // ---- what a run sends ----

  /** Nothing is left to start or to deliver. */
  predicate Quiet(q: Setup, s: System)
    requires Shape(q, s)
  {
    forall i :: 0 <= i < q.meters ==> !Enabled(q, s, Start(i)) && !Enabled(q, s, Deliver(i))
  }

  /** In every run, however messages are delayed, a meter sends nothing or once, and then its subtree's sum. */
  lemma SendsSubtreeSum(q: Setup, ms: seq<Move>, i: int)
    requires SetupOk(q) && IsRun(q, Begin(q), ms) && 0 <= i < q.meters
    ensures var sent := After(q, Begin(q), ms).meters[i].sent; sent == [] || sent == [Expected(q, i)]
  {
    hide Step, Children, Left, Right, Waiting, Partial, Expected, Enabled, IsRun, After;
    BeginOk(q);
    RunKeeps(q, Begin(q), ms);
    assert SystemMeterOk(q, After(q, Begin(q), ms), i);
  }

  lemma {:induction false} QuietSent(q: Setup, s: System, i: int)
    requires Shape(q, s) && Inv(q, s) && Quiet(q, s) && 0 <= i < q.meters && i !in q.crashed
    ensures s.meters[i].sent == [Expected(q, i)]
    decreases q.meters - i
  {
    hide Children, Left, Right, Parent, Waiting, Partial, Expected;
    assert SystemMeterOk(q, s, i);
    assert !Enabled(q, s, Start(i));
    var l, r := Left(q, i), Right(q, i);
    if l != -1 {
      QuietSent(q, s, l);
      ChildOf(q, i, l);
      assert !Enabled(q, s, Deliver(l));
    }
    if r != -1 {
      QuietSent(q, s, r);
      ChildOf(q, i, r);
      assert !Enabled(q, s, Deliver(r));
    }
  }

  /**
   * A run that can go no further has every live meter, so every live root, send exactly one message: the sum over the
   * live part of its subtree.
   */
  lemma EveryMeterSendsOnce(q: Setup, ms: seq<Move>, i: int)
    requires SetupOk(q) && IsRun(q, Begin(q), ms) && Quiet(q, After(q, Begin(q), ms))
    requires 0 <= i < q.meters && i !in q.crashed
    ensures After(q, Begin(q), ms).meters[i].sent == [Expected(q, i)]
  {
    hide Step, Children, Left, Right, Waiting, Partial, Expected, Enabled, IsRun, After, MeterOk, Quiet;
    BeginOk(q);
    RunKeeps(q, Begin(q), ms);
    QuietSent(q, After(q, Begin(q), ms), i);
  }

  // ---- runs are short ----

  function AllMoves(n: nat): set<Move> {
    if n == 0 then {} else AllMoves(n - 1) + {Start(n - 1)} + {Deliver(n - 1)}
  }

  lemma {:induction false} MovesBelow(n: nat, m: Move)
    ensures m in AllMoves(n) <==> 0 <= (if m.Start? then m.i else m.from) < n
  {
    if n > 0 { MovesBelow(n - 1, m); }
  }

  lemma {:induction false} MoveCount(n: nat)
    ensures |AllMoves(n)| == 2 * n
  {
    if n > 0 {
      MoveCount(n - 1);
      MovesBelow(n - 1, Start(n - 1));
      MovesBelow(n - 1, Deliver(n - 1));
      TwoMore(AllMoves(n - 1), Start(n - 1), Deliver(n - 1));
    }
  }

  lemma TwoMore(a: set<Move>, l: Move, m: Move)
    requires l !in a && m !in a && l != m
    ensures |a + {l} + {m}| == |a| + 2
  {
  }

  predicate Made(s: System, m: Move) {
    match m
    case Start(i) => 0 <= i < |s.meters| && s.meters[i].phase != Overlay
    case Deliver(j) => 0 <= j < |s.delivered| && s.delivered[j] > 0
  }

  ghost function Remaining(q: Setup, s: System): set<Move> {
    set m | m in AllMoves(|q.held|) && !Made(s, m)
  }

  lemma StepMakes(q: Setup, s: System, m: Move)
    requires Shape(q, s) && Inv(q, s) && Enabled(q, s, m)
    ensures Remaining(q, Step(q, s, m)) <= Remaining(q, s) - {m} && m in Remaining(q, s)
  {
    hide Children, Left, Right, Parent, Waiting, Partial, Expected, Merge, AddContributions;
    MovesBelow(q.meters, m);
    var i := if m.Start? then m.i else m.from;
    assert SystemMeterOk(q, s, i);
    var s' := Step(q, s, m);
    PhaseAdvances(q, s, m);
    forall k | Made(s, k) ensures Made(s', k) {
    }
    assert Made(s', m);
  }

  lemma PhaseAdvances(q: Setup, s: System, m: Move)
    requires Shape(q, s) && Enabled(q, s, m)
    ensures forall i :: 0 <= i < q.meters && s.meters[i].phase != Overlay ==> Step(q, s, m).meters[i].phase != Overlay
    ensures m.Start? ==> Step(q, s, m).meters[m.i].phase != Overlay
  {
    hide Children, Parent, AddContributions, Merge, NewTree;
    if m.Start? {
      var tree := NewTree(m.i, q.groups, q.meters, q.length, q.known[m.i]);
      var begun := SendIfDone(q, s.meters[m.i].(phase := Aggregate, tree := tree), q.held[m.i]);
      BufferedAdvances(q, begun, q.held[m.i]);
    }
  }

  lemma {:induction false} BufferedAdvances(q: Setup, m: Meter, held: set<Contribution>)
    requires m.phase != Overlay
    ensures HandleBuffered(q, m, held).phase != Overlay
    decreases |m.buffered|
  {
    if m.buffered != [] {
      BufferedAdvances(q, Handle(q, m.(buffered := m.buffered[1..]), held, m.buffered[0]), held);
    }
  }

  lemma {:induction false} RunLength(q: Setup, s: System, ms: seq<Move>)
    requires Shape(q, s) && Inv(q, s) && IsRun(q, s, ms)
    ensures |ms| <= |Remaining(q, s)|
    decreases |ms|
  {
    hide Inv, Step, Enabled, Remaining;
    if ms != [] {
      var m, s' := ms[0], Step(q, s, ms[0]);
      StepKeeps(q, s, m);
      StepMakes(q, s, m);
      RunLength(q, s', ms[1..]);
      Smaller(Remaining(q, s'), Remaining(q, s), m);
    }
  }

  lemma Smaller(a: set<Move>, b: set<Move>, m: Move)
    requires a <= b - {m} && m in b
    ensures |a| < |b|
  {
    assert b - {m} == a + (b - {m} - a);
    assert |a + (b - {m} - a)| == |a| + |b - {m} - a|;
  }

  /** No run has more than two moves a meter, so every run can be continued to one that goes no further. */
  lemma RunsEnd(q: Setup, ms: seq<Move>)
    requires SetupOk(q) && IsRun(q, Begin(q), ms)
    ensures |ms| <= 2 * q.meters
  {
    hide Inv, Step, Enabled, IsRun;
    BeginOk(q);
    RunLength(q, Begin(q), ms);
    MoveCount(q.meters);
    Included(Remaining(q, Begin(q)), AllMoves(|q.held|));
  }

  lemma Included(a: set<Move>, b: set<Move>)
    requires a <= b
    ensures |a| <= |b|
  {
    assert b == a + (b - a);
    assert |a + (b - a)| == |a| + |b - a|;
  }
}
