/**
 * Asynchronous runs refine lockstep. All nodes run one query, nobody fails or times out, and the
 * network delays messages arbitrarily, keeping only the order within one batch.
 */
module AsyncRefinement {
  import opened Overlay
  import opened Phases
  import opened RoundEngine

  // ---- the synchronous execution ----

  function AbsorbAll<P, V>(e: Env<P, V>, nd: Node<P, V>, ts: seq<Transport<V>>): Node<P, V>
    decreases |ts|
  {
    if ts == [] then nd else AbsorbAll(e, Absorb(e, nd, ts[0]), ts[1..])
  }

  function Advance<P, V>(e: Env<P, V>, nd: Node<P, V>): Node<P, V>
    requires Wf(e, nd)
  {
    var a := EndPhase(e, nd);
    EndPhaseWf(e, nd);
    if a.last then a else NextRound(e, a)
  }

  ghost predicate BatchOk<V>(ts: seq<Transport<V>>, sender: nat, round: nat) {
    && |ts| > 0
    && forall k :: 0 <= k < |ts| ==>
         ts[k].sender == sender && ts[k].round == round && (ts[k].final <==> k == |ts| - 1)
  }

  ghost predicate LockInv<P, V>(e: Env<P, V>, nd: Node<P, V>, j: nat, r: nat) {
    && Wf(e, nd) && nd.id == j && nd.started && nd.future == [] && nd.failed == {} && nd.dropped == []
    && (nd.last <==> r == LastRound(e.c) + 1)
    && (!nd.last ==> nd.round == r)
    && |nd.sent| == nd.round + 1
    && forall k: nat :: k < |nd.sent| ==> BatchOk(nd.sent[k], j, k)
  }

  /** A whole system about to run one query in which every send succeeds. */
  ghost predicate Ready<P, V>(e: Env<P, V>, init: seq<Node<P, V>>) {
    && |init| == e.n
    && (forall j :: 0 <= j < e.n ==> Fresh(init[j], e.n) && init[j].id == j)
    && (forall i: nat, t: nat :: e.up(i, t))
  }

  lemma {:induction false} AbsorbAllKeeps<P, V>(e: Env<P, V>, nd: Node<P, V>, ts: seq<Transport<V>>)
    ensures var r := AbsorbAll(e, nd, ts);
            r.(waiting := nd.waiting, proto := nd.proto, handled := nd.handled) == nd
    decreases |ts|
  {
    if ts != [] { AbsorbAllKeeps(e, Absorb(e, nd, ts[0]), ts[1..]); }
  }

  lemma NextRoundSends<P, V>(e: Env<P, V>, a: Node<P, V>)
    requires a.id < e.n && a.round >= -1 && a.failed == {}
    requires forall i: nat, t: nat :: e.up(i, t)
    ensures var b := NextRound(e, a);
            && b.failed == {} && b.round == a.round + 1 && b.started && b.last == a.last && b.id == a.id
            && b.ps == a.ps && b.future == a.future && b.dropped == a.dropped
            && |b.sent| == |a.sent| + 1 && b.sent[..|a.sent|] == a.sent
            && BatchOk(b.sent[|a.sent|], a.id, a.round + 1)
  {
  }

  lemma AdvanceLock<P, V>(e: Env<P, V>, nd: Node<P, V>, j: nat, r: nat)
    requires forall i: nat, t: nat :: e.up(i, t)
    requires Wf(e, nd) && nd.id == j && nd.future == [] && nd.failed == {} && nd.dropped == [] && !nd.last
    requires nd.round == r - 1 && |nd.sent| == r && r <= LastRound(e.c) + 1
    requires forall k: nat :: k < |nd.sent| ==> BatchOk(nd.sent[k], j, k)
    ensures LockInv(e, Advance(e, nd), j, r)
    ensures r <= |Advance(e, nd).sent| && Advance(e, nd).sent[..r] == nd.sent
  {
    EndPhaseWf(e, nd);
    var a := EndPhase(e, nd);
    if !a.last {
      NextRoundSends(e, a);
    } else {
      PhaseSchedule(e.c, nd.round);
    }
  }

  lemma FirstLock<P, V>(e: Env<P, V>, nd: Node<P, V>, j: nat)
    requires (forall i: nat, t: nat :: e.up(i, t)) && Fresh(nd, e.n) && nd.id == j
    ensures Wf(e, nd) && LockInv(e, Advance(e, nd), j, 0)
  {
  }

  lemma NextLock<P, V>(e: Env<P, V>, nd: Node<P, V>, j: nat, r: nat, ts: seq<Transport<V>>)
    requires forall i: nat, t: nat :: e.up(i, t)
    requires 0 < r <= LastRound(e.c) + 1 && LockInv(e, nd, j, r - 1)
    ensures Wf(e, AbsorbAll(e, nd, ts)) && LockInv(e, Advance(e, AbsorbAll(e, nd, ts)), j, r)
    ensures r <= |Advance(e, AbsorbAll(e, nd, ts)).sent| && Advance(e, AbsorbAll(e, nd, ts)).sent[..r] == nd.sent
  {
    hide PhaseAt, EndPhase, NextRound, Absorb, BatchOk;
    AbsorbAllKeeps(e, nd, ts);
    AdvanceLock(e, AbsorbAll(e, nd, ts), j, r);
  }

  /** Node j just after it has sent its round-r batch, or, past the last round, after the overlay. */
  ghost function LockNode<P, V>(e: Env<P, V>, init: seq<Node<P, V>>, r: nat, j: nat): (nd: Node<P, V>)
    requires Ready(e, init) && r <= LastRound(e.c) + 1 && j < e.n
    ensures LockInv(e, nd, j, r)
    decreases r
  {
    if r == 0 then
      FirstLock(e, init[j], j);
      Advance(e, init[j])
    else
      var nd := LockNode(e, init, r - 1, j);
      var ts := LockNode(e, init, r - 1, Predecessor(j, r - 1, e.n)).sent[r - 1];
      NextLock(e, nd, j, r, ts);
      Advance(e, AbsorbAll(e, nd, ts))
  }

  /** The batch node j receives in round r: what its gossip predecessor sent in that round. */
  ghost function Inbound<P, V>(e: Env<P, V>, init: seq<Node<P, V>>, r: nat, j: nat): (ts: seq<Transport<V>>)
    requires Ready(e, init) && r <= LastRound(e.c) && j < e.n
    ensures BatchOk(ts, Predecessor(j, r, e.n), r)
  {
    LockNode(e, init, r, Predecessor(j, r, e.n)).sent[r]
  }

  /** A batch, once sent, stays on record. */
  lemma {:induction false} SentStays<P, V>(e: Env<P, V>, init: seq<Node<P, V>>, k: nat, r: nat, j: nat)
    requires Ready(e, init) && k <= r <= LastRound(e.c) + 1 && k <= LastRound(e.c) && j < e.n
    ensures k < |LockNode(e, init, r, j).sent| && LockNode(e, init, r, j).sent[k] == LockNode(e, init, k, j).sent[k]
    decreases r
  {
    hide PhaseAt, EndPhase, NextRound, Absorb, AbsorbAll, BatchOk, Fresh;
    if k < r {
      SentStays(e, init, k, r - 1, j);
      var nd := LockNode(e, init, r - 1, j);
      var ts := LockNode(e, init, r - 1, Predecessor(j, r - 1, e.n)).sent[r - 1];
      NextLock(e, nd, j, r, ts);
      assert LockNode(e, init, r, j).sent[..r][k] == nd.sent[k];
    }
  }

  ghost predicate OfQuery<V>(ts: seq<Transport<V>>, query: int) {
    forall k :: 0 <= k < |ts| ==> ts[k].message.query == query
  }

  /**
   * In the synchronous execution every message sent is of the query being run. Messages left waiting from an
   * earlier query would be rejected where they arrive.
   */
  ghost predicate OneQuery<P, V>(e: Env<P, V>, init: seq<Node<P, V>>)
    requires Ready(e, init)
  {
    && e.prior < e.query
    && forall r: nat, j: nat {:trigger Inbound(e, init, r, j)} ::
         r <= LastRound(e.c) && j < e.n ==> OfQuery(Inbound(e, init, r, j), e.query)
  }

  ghost predicate Running<P, V>(e: Env<P, V>, init: seq<Node<P, V>>) {
    Ready(e, init) && OneQuery(e, init)
  }

  // ---- one asynchronous node against its lockstep history ----

  /** The lockstep history of one node: its states after sending each batch, and the batches it receives. */
  datatype History<P, V> = History(states: seq<Node<P, V>>, inbound: seq<seq<Transport<V>>>, query: int)

  ghost predicate StepOk<P, V>(e: Env<P, V>, hs: History<P, V>, j: nat, r: nat)
    requires r < |hs.inbound| && r + 1 < |hs.states| && j < e.n
  {
    && LockInv(e, hs.states[r], j, r) && !hs.states[r].last
    && BatchOk(hs.inbound[r], Predecessor(j, r, e.n), r) && OfQuery(hs.inbound[r], hs.query)
    && Wf(e, AbsorbAll(e, hs.states[r], hs.inbound[r]))
    && hs.states[r + 1] == Advance(e, AbsorbAll(e, hs.states[r], hs.inbound[r]))
  }

  ghost predicate HistoryOk<P, V>(e: Env<P, V>, init: Node<P, V>, hs: History<P, V>, j: nat) {
    && j < e.n && Fresh(init, e.n) && Wf(e, init) && init.id == j
    && (forall i: nat, t: nat :: e.up(i, t))
    && hs.query == e.query && e.prior < e.query
    && |hs.inbound| == LastRound(e.c) + 1 && |hs.states| == LastRound(e.c) + 2
    && hs.states[0] == Advance(e, init)
    && LockInv(e, hs.states[LastRound(e.c) + 1], j, LastRound(e.c) + 1)
    && (forall r: nat {:trigger StepOk(e, hs, j, r)} :: r <= LastRound(e.c) ==> StepOk(e, hs, j, r))
  }

  ghost function HistoryOf<P, V>(e: Env<P, V>, init: seq<Node<P, V>>, j: nat): (hs: History<P, V>)
    requires Running(e, init) && j < e.n
    ensures HistoryOk(e, init[j], hs, j)
    ensures forall r :: 0 <= r < |hs.inbound| ==> hs.inbound[r] == Inbound(e, init, r, j)
    ensures forall r :: 0 <= r < |hs.states| ==> hs.states[r] == LockNode(e, init, r, j)
  {
    var hs := History(
                seq(LastRound(e.c) + 2, r requires 0 <= r < LastRound(e.c) + 2 => LockNode(e, init, r, j)),
                seq(LastRound(e.c) + 1, r requires 0 <= r < LastRound(e.c) + 1 => Inbound(e, init, r, j)), e.query);
    ScheduleUnderAnyEvents(e, init[j], []);
    HistorySteps(e, init, j, hs);
    hs
  }

  lemma HistorySteps<P, V>(e: Env<P, V>, init: seq<Node<P, V>>, j: nat, hs: History<P, V>)
    requires Running(e, init) && j < e.n
    requires |hs.inbound| == LastRound(e.c) + 1 && |hs.states| == LastRound(e.c) + 2 && hs.query == e.query
    requires forall r :: 0 <= r < |hs.inbound| ==> hs.inbound[r] == Inbound(e, init, r, j)
    requires forall r :: 0 <= r < |hs.states| ==> hs.states[r] == LockNode(e, init, r, j)
    ensures forall r: nat {:trigger StepOk(e, hs, j, r)} :: r <= LastRound(e.c) ==> StepOk(e, hs, j, r)
  {
    hide PhaseAt, EndPhase, NextRound, Absorb, AbsorbAll;
    forall r: nat | r <= LastRound(e.c) ensures StepOk(e, hs, j, r) {
      AbsorbAllKeeps(e, hs.states[r], hs.inbound[r]);
      assert hs.states[r + 1] == LockNode(e, init, r + 1, j);
    }
  }

  ghost function Bare<P, V>(nd: Node<P, V>): Node<P, V> { nd.(future := []) }

  /** The buffer holds exactly what has been delivered for rounds after r. */
  ghost predicate BufferedRound<P, V>(hs: History<P, V>, future: seq<Transport<V>>, d: seq<nat>, k: nat)
    requires k < |hs.inbound| == |d|
  {
    d[k] <= |hs.inbound[k]| && ForRound(future, k, hs.query) == hs.inbound[k][..d[k]]
  }

  ghost predicate Buffered<P, V>(hs: History<P, V>, future: seq<Transport<V>>, d: seq<nat>, r: int)
    requires |hs.inbound| == |d|
  {
    && (forall t :: t in future ==> r < t.round < |d| && t.message.query == hs.query)
    && (forall k: nat {:trigger BufferedRound(hs, future, d, k)} :: r < k < |d| ==> BufferedRound(hs, future, d, k))
  }

  ghost predicate FullBefore<P, V>(hs: History<P, V>, d: seq<nat>, r: int)
    requires |hs.inbound| == |d|
  {
    forall k: nat {:trigger d[k]} :: k < r && k < |d| ==> d[k] == |hs.inbound[k]|
  }

  /** A node in the middle of round nd.round that has handled the first h messages of its batch. */
  ghost predicate Within<P, V>(e: Env<P, V>, hs: History<P, V>, nd: Node<P, V>, d: seq<nat>, h: nat)
    requires |hs.inbound| == |d| == LastRound(e.c) + 1 && |hs.states| == |d| + 1
  {
    && Wf(e, nd) && nd.started && !nd.last
    && h <= d[nd.round] <= |hs.inbound[nd.round]|
    && Bare(nd) == AbsorbAll(e, hs.states[nd.round], hs.inbound[nd.round][..h])
    && FullBefore(hs, d, nd.round)
    && Buffered(hs, nd.future, d, nd.round)
  }

  /** A node, of whose round-k batch d[k] messages have arrived, is where the lockstep has it. */
  ghost predicate NodeInv<P, V>(e: Env<P, V>, init: Node<P, V>, hs: History<P, V>, nd: Node<P, V>, d: seq<nat>)
    requires |hs.inbound| == LastRound(e.c) + 1 && |hs.states| == LastRound(e.c) + 2
  {
    && |d| == |hs.inbound| && Wf(e, nd)
    && if !nd.started then Bare(nd) == init && Buffered(hs, nd.future, d, -1)
       else if nd.last then Bare(nd) == hs.states[|d|] && nd.future == [] && FullBefore(hs, d, |d|)
       else Within(e, hs, nd, d, d[nd.round]) && d[nd.round] < |hs.inbound[nd.round]|
  }

  lemma {:induction false} AbsorbAppend<P, V>(e: Env<P, V>, nd: Node<P, V>, ts: seq<Transport<V>>, t: Transport<V>)
    ensures AbsorbAll(e, nd, ts + [t]) == Absorb(e, AbsorbAll(e, nd, ts), t)
    decreases |ts|
  {
    if ts == [] {
      assert AbsorbAll(e, Absorb(e, nd, t), []) == Absorb(e, nd, t);
    } else {
      assert (ts + [t])[1..] == ts[1..] + [t];
      AbsorbAppend(e, Absorb(e, nd, ts[0]), ts[1..], t);
    }
  }

  lemma {:induction false} OthersStay<V>(ts: seq<Transport<V>>, r: int, k: int, q: int)
    requires k != r
    ensures ForRound(NotForRound(ts, r, q), k, q) == ForRound(ts, k, q)
  {
    if ts != [] {
      var rest := NotForRound(ts[1..], r, q);
      OthersStay(ts[1..], r, k, q);
      if !Due(ts[0], r, q) {
        assert NotForRound(ts, r, q) == [ts[0]] + rest;
        assert ([ts[0]] + rest)[1..] == rest;
      } else {
        assert NotForRound(ts, r, q) == rest;
      }
    }
  }

  lemma {:induction false} KeptMembers<V>(ts: seq<Transport<V>>, r: int, q: int)
    ensures forall t :: t in NotForRound(ts, r, q) ==> t in ts && !Due(t, r, q)
  {
    if ts != [] { KeptMembers(ts[1..], r, q); }
  }

  lemma {:induction false} ForRoundAppend<V>(ts: seq<Transport<V>>, t: Transport<V>, k: int, q: int)
    ensures ForRound(ts + [t], k, q) == ForRound(ts, k, q) + (if Due(t, k, q) then [t] else [])
  {
    if ts != [] {
      assert (ts + [t])[1..] == ts[1..] + [t];
      ForRoundAppend(ts[1..], t, k, q);
    }
  }

  lemma BufferedNext<P, V>(hs: History<P, V>, future: seq<Transport<V>>, d: seq<nat>, r: int)
    requires |hs.inbound| == |d| && -1 <= r < |d| - 1 && Buffered(hs, future, d, r)
    ensures Buffered(hs, NotForRound(future, r + 1, hs.query), d, r + 1)
    ensures BufferedRound(hs, future, d, r + 1)
  {
    var rest := NotForRound(future, r + 1, hs.query);
    KeptMembers(future, r + 1, hs.query);
    forall k: nat | r + 1 < k < |d| ensures BufferedRound(hs, rest, d, k) {
      OthersStay(future, r + 1, k, hs.query);
      assert BufferedRound(hs, future, d, k);
    }
  }

  lemma Inhabited<T>(s: seq<T>)
    ensures s == [] || exists t :: t in s
  {
    if s != [] { assert s[0] in s; }
  }

  lemma EmptyBuffer<P, V>(hs: History<P, V>, future: seq<Transport<V>>, d: seq<nat>, r: int)
    requires |hs.inbound| == |d| && r == |d| - 1 && Buffered(hs, future, d, r)
    ensures future == []
  {
    Inhabited(future);
  }

  lemma EndPhaseIgnoresBuffer<P, V>(e: Env<P, V>, nd: Node<P, V>)
    ensures Bare(EndPhase(e, nd)) == EndPhase(e, Bare(nd)) && EndPhase(e, nd).future == nd.future
  {
  }

  lemma NextRoundIgnoresBuffer<P, V>(e: Env<P, V>, nd: Node<P, V>)
    requires nd.id < e.n && nd.round >= -1
    ensures Bare(NextRound(e, nd)) == NextRound(e, Bare(nd)) && NextRound(e, nd).future == nd.future
  {
  }

  lemma AdvanceIgnoresBuffer<P, V>(e: Env<P, V>, nd: Node<P, V>)
    requires Wf(e, nd)
    ensures Wf(e, Bare(nd)) && Bare(Advance(e, nd)) == Advance(e, Bare(nd)) && Advance(e, nd).future == nd.future
  {
    EndPhaseIgnoresBuffer(e, nd);
    EndPhaseWf(e, nd);
    var a := EndPhase(e, nd);
    if !a.last { NextRoundIgnoresBuffer(e, a); }
  }

  /** Everything a node has handled before the end of round nd.round. */
  ghost predicate RoundDone<P, V>(e: Env<P, V>, init: Node<P, V>, hs: History<P, V>, nd: Node<P, V>, d: seq<nat>)
    requires |hs.inbound| == LastRound(e.c) + 1 && |hs.states| == LastRound(e.c) + 2
  {
    && |d| == |hs.inbound| && Wf(e, nd) && !nd.last
    && (if nd.round == -1 then Bare(nd) == init
        else Bare(nd) == AbsorbAll(e, hs.states[nd.round], hs.inbound[nd.round]))
    && FullBefore(hs, d, nd.round + 1) && Buffered(hs, nd.future, d, nd.round)
  }

  lemma NextState<P, V>(e: Env<P, V>, init: Node<P, V>, hs: History<P, V>, j: nat, nd: Node<P, V>, d: seq<nat>)
    requires HistoryOk(e, init, hs, j) && RoundDone(e, init, hs, nd, d)
    ensures Wf(e, Bare(nd)) && Advance(e, Bare(nd)) == hs.states[nd.round + 1]
  {
    hide Advance, PhaseAt, EndPhase, NextRound, LockInv, Buffered, FullBefore;
    if nd.round >= 0 { assert StepOk(e, hs, j, nd.round); }
  }

  lemma StepIsOk<P, V>(e: Env<P, V>, init: Node<P, V>, hs: History<P, V>, j: nat, r: nat)
    requires HistoryOk(e, init, hs, j) && r <= LastRound(e.c)
    ensures StepOk(e, hs, j, r)
  {
  }

  lemma StateOk<P, V>(e: Env<P, V>, init: Node<P, V>, hs: History<P, V>, j: nat, r: nat)
    requires HistoryOk(e, init, hs, j) && r <= LastRound(e.c) + 1
    ensures LockInv(e, hs.states[r], j, r)
  {
    if r <= LastRound(e.c) { assert StepOk(e, hs, j, r); }
  }

  /** A node that has handled its whole round moves on to the matching lockstep state. */
  lemma {:induction false} EndRoundKeeps<P, V>(e: Env<P, V>, init: Node<P, V>, hs: History<P, V>, j: nat,
                                               nd: Node<P, V>, d: seq<nat>)
    requires HistoryOk(e, init, hs, j) && RoundDone(e, init, hs, nd, d)
    ensures NodeInv(e, init, hs, EndRound(e, nd), d)
    decreases LastRound(e.c) - nd.round, 0, 0
  {
    hide PhaseAt, EndPhase, NextRound, FullBefore;
    var r := nd.round + 1;
    var b := Advance(e, nd);
    NextState(e, init, hs, j, nd, d);
    AdvanceIgnoresBuffer(e, nd);
    StateOk(e, init, hs, j, r);
    EndPhaseWf(e, nd);
    if b.last {
      EmptyBuffer(hs, nd.future, d, nd.round);
    } else {
      BufferedNext(hs, nd.future, d, nd.round);
      var b' := b.(future := NotForRound(b.future, r, e.query));
      var got := ForRound(b.future, r, e.query);
      assert hs.inbound[r][..0] == [];
      assert got == hs.inbound[r][0..d[r]];
      StepIsOk(e, init, hs, j, r);
      assert Within(e, hs, b', d, 0);
      HandleAllKeeps(e, init, hs, j, b', d, 0, got);
      NeverFails(e, init, hs, j, HandleAll(e, b', got), d);
      assert EndRound(e, nd) == HandleAll(e, b', got);
    }
  }

  lemma NeverFails<P, V>(e: Env<P, V>, init: Node<P, V>, hs: History<P, V>, j: nat, nd: Node<P, V>, d: seq<nat>)
    requires HistoryOk(e, init, hs, j) && NodeInv(e, init, hs, nd, d)
    ensures nd.failed == {} && nd.dropped == []
  {
    if nd.started && !nd.last {
      assert StepOk(e, hs, j, nd.round);
      AbsorbAllKeeps(e, hs.states[nd.round], hs.inbound[nd.round][..d[nd.round]]);
      assert Bare(nd).failed == {} && Bare(nd).dropped == [];
    } else {
      assert Bare(nd).failed == nd.failed && Bare(nd).dropped == nd.dropped;
    }
  }

  lemma AbsorbOne<P, V>(e: Env<P, V>, hs: History<P, V>, j: nat, nd: Node<P, V>, d: seq<nat>, h: nat)
    requires j < e.n && |hs.inbound| == |d| == LastRound(e.c) + 1 && |hs.states| == |d| + 1
    requires Within(e, hs, nd, d, h) && h < d[nd.round]
    ensures var b := Absorb(e, nd, hs.inbound[nd.round][h]);
            && Wf(e, b) && b.round == nd.round && b.ps == nd.ps && InOverlay(b.ps)
            && Within(e, hs, b, d, h + 1)
  {
    var ts := hs.inbound[nd.round];
    AbsorbAppend(e, hs.states[nd.round], ts[..h], ts[h]);
    assert ts[..h] + [ts[h]] == ts[..h + 1];
    PhaseSchedule(e.c, nd.round - 1);
  }

  lemma {:induction false} HandleOneKeeps<P, V>(e: Env<P, V>, init: Node<P, V>, hs: History<P, V>, j: nat,
                                                nd: Node<P, V>, d: seq<nat>, h: nat)
    requires HistoryOk(e, init, hs, j) && |d| == |hs.inbound| && Within(e, hs, nd, d, h) && h < d[nd.round]
    ensures var t := hs.inbound[nd.round][h];
            var x := HandleMessage(e, nd, t);
            && (t.final <==> h == |hs.inbound[nd.round]| - 1)
            && if t.final then NodeInv(e, init, hs, x, d) else x.round == nd.round && Within(e, hs, x, d, h + 1)
    decreases LastRound(e.c) - nd.round, 1, 0
  {
    hide PhaseAt, Absorb, AbsorbAll, EndRound, LockInv, Buffered, Advance, Fresh;
    var ts := hs.inbound[nd.round];
    var b := Absorb(e, nd, ts[h]);
    AbsorbOne(e, hs, j, nd, d, h);
    StepIsOk(e, init, hs, j, nd.round);
    if ts[h].final {
      assert ts[..h + 1] == ts;
      assert RoundDone(e, init, hs, b, d);
      EndRoundKeeps(e, init, hs, j, b, d);
    }
  }

  lemma {:induction false} HandleAllKeeps<P, V>(e: Env<P, V>, init: Node<P, V>, hs: History<P, V>, j: nat,
                                                nd: Node<P, V>, d: seq<nat>, h: nat, ts: seq<Transport<V>>)
    requires HistoryOk(e, init, hs, j) && |d| == |hs.inbound| && Within(e, hs, nd, d, h)
    requires h < |hs.inbound[nd.round]| && ts == hs.inbound[nd.round][h..d[nd.round]]
    ensures NodeInv(e, init, hs, HandleAll(e, nd, ts), d)
    decreases LastRound(e.c) - nd.round, 2, |ts|
  {
    if ts != [] {
      HandleOneKeeps(e, init, hs, j, nd, d, h);
      var x := HandleMessage(e, nd, ts[0]);
      if ts[0].final {
        assert ts[1..] == [];
        assert HandleAll(e, x, []) == x;
      } else {
        assert ts[1..] == hs.inbound[nd.round][h + 1..d[nd.round]];
        HandleAllKeeps(e, init, hs, j, x, d, h + 1, ts[1..]);
      }
    }
  }

  // ---- one delivery ----

  lemma WithinMore<P, V>(e: Env<P, V>, hs: History<P, V>, nd: Node<P, V>, d: seq<nat>)
    requires |hs.inbound| == |d| == LastRound(e.c) + 1 && |hs.states| == |d| + 1
    requires nd.started && Wf(e, nd) && Within(e, hs, nd, d, d[nd.round]) && d[nd.round] < |hs.inbound[nd.round]|
    ensures Within(e, hs, nd, d[nd.round := d[nd.round] + 1], d[nd.round])
  {
    hide PhaseAt, AbsorbAll;
    var d' := d[nd.round := d[nd.round] + 1];
    forall k: nat | nd.round < k < |d| ensures BufferedRound(hs, nd.future, d', k) {
      assert BufferedRound(hs, nd.future, d, k);
    }
    assert FullBefore(hs, d', nd.round);
  }

  lemma BufferMore<P, V>(hs: History<P, V>, future: seq<Transport<V>>, d: seq<nat>, r: int, k: nat)
    requires |hs.inbound| == |d| && r < k < |d| && Buffered(hs, future, d, r) && d[k] < |hs.inbound[k]|
    requires Due(hs.inbound[k][d[k]], k, hs.query)
    ensures Buffered(hs, future + [hs.inbound[k][d[k]]], d[k := d[k] + 1], r)
  {
    var t := hs.inbound[k][d[k]];
    var d' := d[k := d[k] + 1];
    forall i: nat | r < i < |d| ensures BufferedRound(hs, future + [t], d', i) {
      assert BufferedRound(hs, future, d, i);
      ForRoundAppend(future, t, i, hs.query);
      if i == k {
        assert hs.inbound[k][..d[k]] + [t] == hs.inbound[k][..d[k] + 1];
      } else {
        assert ForRound(future, i, hs.query) + [] == ForRound(future, i, hs.query);
      }
    }
  }

  lemma KeepsId<P, V>(e: Env<P, V>, init: Node<P, V>, hs: History<P, V>, j: nat, nd: Node<P, V>, d: seq<nat>)
    requires HistoryOk(e, init, hs, j) && NodeInv(e, init, hs, nd, d)
    ensures nd.id == j
  {
    hide PhaseAt, Absorb, AbsorbAll, Advance, Buffered, FullBefore;
    if nd.started && !nd.last {
      StepIsOk(e, init, hs, j, nd.round);
      AbsorbAllKeeps(e, hs.states[nd.round], hs.inbound[nd.round][..d[nd.round]]);
    }
    assert Bare(nd).id == j;
  }

  lemma BufferedForLater<P, V>(e: Env<P, V>, init: Node<P, V>, hs: History<P, V>, j: nat, nd: Node<P, V>, d: seq<nat>, r: nat)
    requires HistoryOk(e, init, hs, j) && NodeInv(e, init, hs, nd, d)
    requires r < |d| && d[r] < |hs.inbound[r]| && (!nd.started || r > nd.round)
    ensures NodeInv(e, init, hs, nd.(future := nd.future + [hs.inbound[r][d[r]]]), d[r := d[r] + 1])
  {
    hide PhaseAt, Absorb, AbsorbAll, Advance, LockInv, Fresh, Buffered, ForRound;
    StepIsOk(e, init, hs, j, r);
    BufferMore(hs, nd.future, d, if nd.started then nd.round else -1, r);
    assert Bare(nd.(future := nd.future + [hs.inbound[r][d[r]]])) == Bare(nd);
    if nd.started { assert FullBefore(hs, d[r := d[r] + 1], nd.round); }
  }

  /** The next message of a batch reaches a node that has not left the batch's round behind. */
  lemma DeliverKeeps<P, V>(e: Env<P, V>, init: Node<P, V>, hs: History<P, V>, j: nat, nd: Node<P, V>, d: seq<nat>, r: nat)
    requires HistoryOk(e, init, hs, j) && NodeInv(e, init, hs, nd, d)
    requires r < |d| && d[r] < |hs.inbound[r]|
    ensures NodeInv(e, init, hs, Dispatch(e, nd, hs.inbound[r][d[r]]), d[r := d[r] + 1])
  {
    hide PhaseAt, Absorb, AbsorbAll, EndRound, HandleMessage, Advance, LockInv, Fresh, Buffered;
    var t := hs.inbound[r][d[r]];
    StepIsOk(e, init, hs, j, r);
    assert t.round == r && t.sender == Predecessor(j, r, e.n);
    GossipInverse(t.sender, j, r, e.n);
    KeepsId(e, init, hs, j, nd, d);
    if !nd.started || r > nd.round {
      BufferedForLater(e, init, hs, j, nd, d, r);
    } else if r == nd.round {
      WithinMore(e, hs, nd, d);
      HandleOneKeeps(e, init, hs, j, nd, d[r := d[r] + 1], d[r]);
    }
  }

  lemma StartKeeps<P, V>(e: Env<P, V>, init: Node<P, V>, hs: History<P, V>, j: nat, nd: Node<P, V>, d: seq<nat>)
    requires HistoryOk(e, init, hs, j) && NodeInv(e, init, hs, nd, d) && !nd.started
    ensures NodeInv(e, init, hs, EndRound(e, nd), d)
  {
    assert !Bare(nd).last;
    EndRoundKeeps(e, init, hs, j, nd, d);
  }

  // ---- whole runs ----

  /** All nodes, and how many messages of the batch of each round each node has received. */
  datatype Global<P, V> = Global(nodes: seq<Node<P, V>>, delivered: seq<seq<nat>>)

  ghost predicate Shape<P, V>(e: Env<P, V>, g: Global<P, V>) {
    && |g.nodes| == |g.delivered| == e.n
    && (forall j :: 0 <= j < e.n ==> |g.delivered[j]| == LastRound(e.c) + 1 && Wf(e, g.nodes[j]))
  }

  /** Some message of the batch sent to j in round r is still on its way. */
  ghost predicate InFlight<P, V>(e: Env<P, V>, g: Global<P, V>, j: nat, r: nat)
    requires Shape(e, g)
  {
    && j < e.n && r <= LastRound(e.c)
    && r < |g.nodes[Predecessor(j, r, e.n)].sent|
    && g.delivered[j][r] < |g.nodes[Predecessor(j, r, e.n)].sent[r]|
  }

  /** The network may start any node that has not started, and deliver the oldest message of any batch. */
  datatype Move = Begin(j: nat) | Arrive(j: nat, r: nat)

  ghost predicate Enabled<P, V>(e: Env<P, V>, g: Global<P, V>, m: Move)
    requires Shape(e, g)
  {
    match m
    case Begin(j) => j < e.n && !g.nodes[j].started
    case Arrive(j, r) => InFlight(e, g, j, r)
  }

  ghost function Apply<P, V>(e: Env<P, V>, g: Global<P, V>, m: Move): (g': Global<P, V>)
    requires Shape(e, g) && Enabled(e, g, m)
    ensures Shape(e, g')
  {
    match m
    case Begin(j) => g.(nodes := g.nodes[j := EndRound(e, g.nodes[j])])
    case Arrive(j, r) =>
      var t := g.nodes[Predecessor(j, r, e.n)].sent[r][g.delivered[j][r]];
      Global(g.nodes[j := Dispatch(e, g.nodes[j], t)],
             g.delivered[j := g.delivered[j][r := g.delivered[j][r] + 1]])
  }

  ghost function Initial<P, V>(e: Env<P, V>, init: seq<Node<P, V>>): (g: Global<P, V>)
    requires Running(e, init)
    ensures Shape(e, g)
  {
    var zeros := seq(LastRound(e.c) + 1, i => 0 as nat);
    forall j | 0 <= j < e.n ensures Wf(e, init[j]) { ScheduleUnderAnyEvents(e, init[j], []); }
    Global(init, seq(e.n, j => zeros))
  }

  /** `moves` is a run of the network from g. */
  ghost predicate IsRun<P, V>(e: Env<P, V>, g: Global<P, V>, moves: seq<Move>)
    requires Shape(e, g)
    decreases |moves|
  {
    moves == [] || (Enabled(e, g, moves[0]) && IsRun(e, Apply(e, g, moves[0]), moves[1..]))
  }

  ghost function After<P, V>(e: Env<P, V>, g: Global<P, V>, moves: seq<Move>): (g': Global<P, V>)
    requires Shape(e, g) && IsRun(e, g, moves)
    ensures Shape(e, g')
    decreases |moves|
  {
    if moves == [] then g else After(e, Apply(e, g, moves[0]), moves[1..])
  }

  ghost predicate NodeFollows<P, V>(e: Env<P, V>, init: seq<Node<P, V>>, g: Global<P, V>, j: nat)
    requires Running(e, init) && Shape(e, g) && j < e.n
  {
    NodeInv(e, init[j], HistoryOf(e, init, j), g.nodes[j], g.delivered[j])
  }

  ghost predicate Follows<P, V>(e: Env<P, V>, init: seq<Node<P, V>>, g: Global<P, V>)
    requires Running(e, init)
  {
    Shape(e, g) && forall j: nat {:trigger NodeFollows(e, init, g, j)} :: j < e.n ==> NodeFollows(e, init, g, j)
  }

  /** What an asynchronous node has sent is what its lockstep counterpart sent. */
  lemma SentMatches<P, V>(e: Env<P, V>, init: seq<Node<P, V>>, g: Global<P, V>, i: nat, r: nat)
    requires Running(e, init) && Follows(e, init, g) && i < e.n
    ensures |g.nodes[i].sent| == g.nodes[i].round + 1
    ensures r < |g.nodes[i].sent| ==>
              r <= LastRound(e.c) && g.nodes[i].sent[r] == LockNode(e, init, r, i).sent[r]
  {
    hide PhaseAt, Absorb, AbsorbAll;
    assert NodeFollows(e, init, g, i);
    var nd := g.nodes[i];
    var hs := HistoryOf(e, init, i);
    if nd.started {
      var k: nat := if nd.last then LastRound(e.c) + 1 else nd.round;
      if !nd.last {
        StepIsOk(e, init[i], hs, i, k);
        AbsorbAllKeeps(e, hs.states[k], hs.inbound[k][..g.delivered[i][k]]);
      }
      assert hs.states[k] == LockNode(e, init, k, i);
      assert Bare(nd).sent == LockNode(e, init, k, i).sent;
      if r < |nd.sent| { SentStays(e, init, r, k, i); }
    } else {
      assert Bare(nd).sent == [];
    }
  }

  lemma StepFollows<P, V>(e: Env<P, V>, init: seq<Node<P, V>>, g: Global<P, V>, m: Move)
    requires Running(e, init) && Follows(e, init, g) && Enabled(e, g, m)
    ensures Follows(e, init, Apply(e, g, m))
  {
    hide PhaseAt, EndRound, Dispatch, NodeInv, HistoryOk, LockNode;
    var g' := Apply(e, g, m);
    var hs := HistoryOf(e, init, m.j);
    assert NodeFollows(e, init, g, m.j);
    match m {
      case Begin(j) => StartKeeps(e, init[j], hs, j, g.nodes[j], g.delivered[j]);
      case Arrive(j, r) =>
        SentMatches(e, init, g, Predecessor(j, r, e.n), r);
        ArriveFollows(e, init, g, j, r);
    }
    forall j: nat | j < e.n ensures NodeFollows(e, init, g', j) {
      assert NodeFollows(e, init, g, j);
    }
  }

  lemma ArriveFollows<P, V>(e: Env<P, V>, init: seq<Node<P, V>>, g: Global<P, V>, j: nat, r: nat)
    requires Running(e, init) && Follows(e, init, g) && InFlight(e, g, j, r)
    requires g.nodes[Predecessor(j, r, e.n)].sent[r] == Inbound(e, init, r, j)
    ensures NodeFollows(e, init, Apply(e, g, Arrive(j, r)), j)
  {
    hide PhaseAt, EndRound, Dispatch, LockNode;
    assert NodeFollows(e, init, g, j);
    DeliverKeeps(e, init[j], HistoryOf(e, init, j), j, g.nodes[j], g.delivered[j], r);
  }

  lemma InitialFollows<P, V>(e: Env<P, V>, init: seq<Node<P, V>>)
    requires Running(e, init)
    ensures Follows(e, init, Initial(e, init))
  {
    var g := Initial(e, init);
    forall j: nat | j < e.n ensures NodeFollows(e, init, g, j) {
      var hs, d := HistoryOf(e, init, j), g.delivered[j];
      forall k: nat | k < |d| ensures BufferedRound(hs, [], d, k) {
        assert hs.inbound[k][..0] == [];
      }
    }
  }

  lemma {:induction false} RunFollows<P, V>(e: Env<P, V>, init: seq<Node<P, V>>, g: Global<P, V>, moves: seq<Move>)
    requires Running(e, init) && Follows(e, init, g) && IsRun(e, g, moves)
    ensures Follows(e, init, After(e, g, moves))
    decreases |moves|
  {
    if moves != [] {
      StepFollows(e, init, g, moves[0]);
      RunFollows(e, init, Apply(e, g, moves[0]), moves[1..]);
    }
  }

  // ---- what a run shows ----

  function Tagged<V>(ts: seq<Transport<V>>, round: int): seq<(int, Transport<V>)> {
    seq(|ts|, k requires 0 <= k < |ts| => (round, ts[k]))
  }

  /** The batches of rounds 0 to r-1, each message handled in its own round, in order. */
  ghost function LockLog<P, V>(e: Env<P, V>, init: seq<Node<P, V>>, r: nat, j: nat): seq<(int, Transport<V>)>
    requires Ready(e, init) && r <= LastRound(e.c) + 1 && j < e.n
  {
    if r == 0 then [] else LockLog(e, init, r - 1, j) + Tagged(Inbound(e, init, r - 1, j), r - 1)
  }

  lemma {:induction false} AbsorbAllLogs<P, V>(e: Env<P, V>, nd: Node<P, V>, ts: seq<Transport<V>>)
    ensures AbsorbAll(e, nd, ts).handled == nd.handled + Tagged(ts, nd.round)
    decreases |ts|
  {
    if ts != [] {
      AbsorbAllLogs(e, Absorb(e, nd, ts[0]), ts[1..]);
      assert Tagged(ts, nd.round) == [(nd.round, ts[0])] + Tagged(ts[1..], nd.round);
    }
  }

  lemma AdvanceKeepsLog<P, V>(e: Env<P, V>, nd: Node<P, V>)
    requires Wf(e, nd)
    ensures Advance(e, nd).handled == nd.handled
  {
  }

  lemma {:induction false} LockLogs<P, V>(e: Env<P, V>, init: seq<Node<P, V>>, r: nat, j: nat)
    requires Ready(e, init) && r <= LastRound(e.c) + 1 && j < e.n
    ensures LockNode(e, init, r, j).handled == LockLog(e, init, r, j)
  {
    hide PhaseAt, Absorb, EndPhase, NextRound;
    if r == 0 {
      ScheduleUnderAnyEvents(e, init[j], []);
      AdvanceKeepsLog(e, init[j]);
    } else {
      LockLogs(e, init, r - 1, j);
      LockUnfold(e, init, r - 1, j);
      var nd, ts := LockNode(e, init, r - 1, j), Inbound(e, init, r - 1, j);
      AbsorbAllLogs(e, nd, ts);
      AdvanceKeepsLog(e, AbsorbAll(e, nd, ts));
    }
  }

  lemma LockUnfold<P, V>(e: Env<P, V>, init: seq<Node<P, V>>, r: nat, j: nat)
    requires Ready(e, init) && r <= LastRound(e.c) && j < e.n
    ensures Wf(e, AbsorbAll(e, LockNode(e, init, r, j), Inbound(e, init, r, j)))
    ensures LockNode(e, init, r + 1, j) == Advance(e, AbsorbAll(e, LockNode(e, init, r, j), Inbound(e, init, r, j)))
  {
    hide PhaseAt, Absorb, AbsorbAll, EndPhase, NextRound, Advance;
    NextLock(e, LockNode(e, init, r, j), j, r + 1, Inbound(e, init, r, j));
  }

  /** The middle of a round: a prefix of the round's batch has been handled. */
  ghost predicate MidRound<P, V>(e: Env<P, V>, init: seq<Node<P, V>>, nd: Node<P, V>, j: nat, h: nat)
    requires Ready(e, init) && j < e.n && 0 <= nd.round <= LastRound(e.c)
  {
    && h < |Inbound(e, init, nd.round, j)|
    && Bare(nd) == AbsorbAll(e, LockNode(e, init, nd.round, j), Inbound(e, init, nd.round, j)[..h])
    && nd.handled == LockLog(e, init, nd.round, j) + Tagged(Inbound(e, init, nd.round, j)[..h], nd.round)
  }

  lemma ShowMidRound<P, V>(e: Env<P, V>, init: seq<Node<P, V>>, g: Global<P, V>, j: nat)
    requires Running(e, init) && Follows(e, init, g) && j < e.n && g.nodes[j].started && !g.nodes[j].last
    ensures MidRound(e, init, g.nodes[j], j, g.delivered[j][g.nodes[j].round])
  {
    hide PhaseAt, Absorb, LockInv, LockNode;
    assert NodeFollows(e, init, g, j);
    var nd, hs := g.nodes[j], HistoryOf(e, init, j);
    var r, h := nd.round, g.delivered[j][nd.round];
    LockLogs(e, init, r, j);
    assert hs.states[r] == LockNode(e, init, r, j) && hs.inbound[r] == Inbound(e, init, r, j);
    AbsorbAllLogs(e, hs.states[r], hs.inbound[r][..h]);
    StepIsOk(e, init[j], hs, j, r);
    LockedRound(e, hs.states[r], j, r);
    assert Bare(nd).handled == nd.handled;
  }

  lemma LockedRound<P, V>(e: Env<P, V>, nd: Node<P, V>, j: nat, r: nat)
    requires LockInv(e, nd, j, r) && r <= LastRound(e.c)
    ensures nd.round == r
  {
  }

  lemma ShowEnd<P, V>(e: Env<P, V>, init: seq<Node<P, V>>, g: Global<P, V>, j: nat)
    requires Running(e, init) && Follows(e, init, g) && j < e.n && g.nodes[j].started && g.nodes[j].last
    ensures g.nodes[j] == LockNode(e, init, LastRound(e.c) + 1, j)
    ensures g.nodes[j].handled == LockLog(e, init, LastRound(e.c) + 1, j)
  {
    hide PhaseAt, Absorb, AbsorbAll, LockInv, LockNode, Fresh, Advance, Wf, FullBefore;
    assert NodeFollows(e, init, g, j);
    var nd, hs := g.nodes[j], HistoryOf(e, init, j);
    LockLogs(e, init, LastRound(e.c) + 1, j);
    assert hs.states[LastRound(e.c) + 1] == LockNode(e, init, LastRound(e.c) + 1, j);
    assert Bare(nd) == nd;
  }

  lemma ShowUnstarted<P, V>(e: Env<P, V>, init: seq<Node<P, V>>, g: Global<P, V>, j: nat)
    requires Running(e, init) && Follows(e, init, g) && j < e.n && !g.nodes[j].started
    ensures g.nodes[j].handled == []
  {
    hide PhaseAt, Absorb, AbsorbAll, LockInv, LockNode, Advance, Wf, FullBefore;
    assert NodeFollows(e, init, g, j);
    assert Bare(g.nodes[j]).handled == [];
  }

  /**
   * Under any delays, every node has handled exactly the batches of its earlier rounds and a prefix of
   * the current one, each message once and while the node was in the message's round; nothing is ever
   * rejected as too old; apart from messages buffered for later, its state is the lockstep state.
   */
  lemma AsynchronousRefinesLockstep<P, V>(e: Env<P, V>, init: seq<Node<P, V>>, moves: seq<Move>, j: nat)
    requires Running(e, init) && IsRun(e, Initial(e, init), moves) && j < e.n
    ensures var nd := After(e, Initial(e, init), moves).nodes[j];
            && nd.dropped == []
            && (if !nd.started then nd.handled == []
                else if nd.last then
                  && nd == LockNode(e, init, LastRound(e.c) + 1, j)
                  && nd.handled == LockLog(e, init, LastRound(e.c) + 1, j)
                else exists h: nat :: MidRound(e, init, nd, j, h))
  {
    hide PhaseAt, Absorb, LockInv, LockNode, Apply, IsRun, MidRound;
    InitialFollows(e, init);
    RunFollows(e, init, Initial(e, init), moves);
    var g := After(e, Initial(e, init), moves);
    assert NodeFollows(e, init, g, j);
    NeverFails(e, init[j], HistoryOf(e, init, j), j, g.nodes[j], g.delivered[j]);
    if g.nodes[j].started && !g.nodes[j].last {
      ShowMidRound(e, init, g, j);
    } else if g.nodes[j].started {
      ShowEnd(e, init, g, j);
    } else {
      ShowUnstarted(e, init, g, j);
    }
  }

  // ---- no deadlock ----

  lemma {:induction false} SlowestNode<P, V>(nodes: seq<Node<P, V>>, k: nat) returns (j: nat)
    requires 0 < k <= |nodes|
    ensures j < k && forall i :: 0 <= i < k ==> nodes[j].round <= nodes[i].round
  {
    if k == 1 {
      j := 0;
    } else {
      j := SlowestNode(nodes, k - 1);
      if nodes[k - 1].round < nodes[j].round { j := k - 1; }
    }
  }

  /** As long as some node has not left the overlay, the network can start one or deliver something. */
  lemma NoDeadlock<P, V>(e: Env<P, V>, init: seq<Node<P, V>>, g: Global<P, V>)
    requires Running(e, init) && Follows(e, init, g)
    requires exists j: nat :: j < e.n && !g.nodes[j].last
    ensures exists m :: Enabled(e, g, m)
  {
    hide PhaseAt, Absorb, AbsorbAll, LockNode, LockInv, HistoryOk;
    if j: nat :| j < e.n && !g.nodes[j].started {
      assert Enabled(e, g, Begin(j));
    } else {
      var slow := SlowestNode(g.nodes, e.n);
      var j: nat := slow;
      if g.nodes[slow].last {
        j :| j < e.n && !g.nodes[j].last;
      }
      var r: nat := g.nodes[j].round;
      var i := Predecessor(j, r, e.n);
      assert g.nodes[i].round >= r;
      SentMatches(e, init, g, i, r);
      assert NodeFollows(e, init, g, j);
      assert Enabled(e, g, Arrive(j, r));
    }
  }
}
