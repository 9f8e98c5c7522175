/**
 * What a meter has recorded, in terms of the messages sent: a value is recorded exactly when its message reaches the
 * last hop while the meter accepts it (handle_overlay_message_impl of src/CtProtocolState.cpp and
 * src/BftProtocolState.cpp, on top of the forwarding rule).
 */
module Delivery {
  import opened Overlay
  import opened Phases
  import opened RoundEngine
  import opened AsyncRefinement
  import opened Routing
  import opened Forwarding
  import PathFinder

  /** Node x's protocol state at the end of round r, before the phase change. */
  ghost function StateAt<P, V>(e: Env<P, V>, init: seq<Node<P, V>>, r: nat, x: nat): P
    requires Ready(e, init) && r <= LastRound(e.c) && x < e.n
  {
    AbsorbAll(e, LockNode(e, init, r, x), Inbound(e, init, r, x)).proto
  }

  /** The phase in which the messages of round r are handled. */
  function PhaseIn(c: Config, r: nat): Phase {
    PhaseAt(c, r - 1).phase
  }

  // ---- recording ----

  /** `kept` says that v has been recorded: delivery in an accepting phase records it, nothing forgets it. */
  ghost predicate Records<P(!new), V(!new)>(impl: Impl<P, V>, deliver: (P, Phase, V) -> P, kept: P -> bool, v: V,
                                            accepts: Phase -> bool) {
    && (forall p, id, q, m :: impl.receive(p, id, q, m) == ForwardingReceive(deliver)(p, id, q, m))
    && (forall p, q :: accepts(q) ==> kept(deliver(p, q, v)))
    && (forall p, q, w :: kept(p) ==> kept(deliver(p, q, w)))
    && (forall p, id, a, b, r :: kept(p) ==> kept(impl.roundEnd(p, id, a, b, r).0))
  }

  /** Nothing else records it. */
  ghost predicate OnlyBy<P(!new), V(!new)>(impl: Impl<P, V>, deliver: (P, Phase, V) -> P, kept: P -> bool, v: V,
                                           accepts: Phase -> bool) {
    && (forall p, q, w :: kept(deliver(p, q, w)) ==> kept(p) || (w == v && accepts(q)))
    && (forall p, id, a, b, r :: kept(impl.roundEnd(p, id, a, b, r).0) ==> kept(p))
  }

  lemma RecordsForwards<P(!new), V(!new)>(impl: Impl<P, V>, deliver: (P, Phase, V) -> P, kept: P -> bool, v: V,
                                          accepts: Phase -> bool)
    requires Records(impl, deliver, kept, v, accepts)
    ensures Forwards(impl)
  {
  }

  /** Handling m at node id hands it v. */
  predicate DeliversTo<V(==)>(m: Message<V>, id: nat, v: V) {
    m.body == Value(v) && id == if m.remaining == [] then m.dest else m.remaining[0]
  }

  lemma AbsorbRecords<P(!new), V(!new)>(e: Env<P, V>, nd: Node<P, V>, t: Transport<V>,
                                        deliver: (P, Phase, V) -> P, kept: P -> bool, v: V, accepts: Phase -> bool)
    requires Records(e.impl, deliver, kept, v, accepts)
    ensures kept(nd.proto) ==> kept(Absorb(e, nd, t).proto)
    ensures accepts(nd.ps.phase) && DeliversTo(t.message, nd.id, v) ==> kept(Absorb(e, nd, t).proto)
    ensures OnlyBy(e.impl, deliver, kept, v, accepts) && kept(Absorb(e, nd, t).proto) ==>
              kept(nd.proto) || (accepts(nd.ps.phase) && DeliversTo(t.message, nd.id, v))
  {
  }

  lemma {:induction false} AbsorbAllRecords<P(!new), V(!new)>(
    e: Env<P, V>, nd: Node<P, V>, ts: seq<Transport<V>>, deliver: (P, Phase, V) -> P, kept: P -> bool, v: V,
    accepts: Phase -> bool)
    requires Records(e.impl, deliver, kept, v, accepts)
    ensures kept(nd.proto) ==> kept(AbsorbAll(e, nd, ts).proto)
    ensures accepts(nd.ps.phase) && (exists k :: 0 <= k < |ts| && DeliversTo(ts[k].message, nd.id, v)) ==>
              kept(AbsorbAll(e, nd, ts).proto)
    ensures OnlyBy(e.impl, deliver, kept, v, accepts) && kept(AbsorbAll(e, nd, ts).proto) ==>
              || kept(nd.proto)
              || (accepts(nd.ps.phase) && exists k :: 0 <= k < |ts| && DeliversTo(ts[k].message, nd.id, v))
    decreases |ts|
  {
    hide Records, OnlyBy, DeliversTo;
    if ts != [] {
      AbsorbRecords(e, nd, ts[0], deliver, kept, v, accepts);
      AbsorbAllRecords(e, Absorb(e, nd, ts[0]), ts[1..], deliver, kept, v, accepts);
      assert forall k :: 0 < k < |ts| ==> ts[k] == ts[1..][k - 1];
      assert forall k :: 0 <= k < |ts| - 1 ==> ts[1..][k] == ts[k + 1];
    }
  }

  lemma AdvanceRecords<P(!new), V(!new)>(e: Env<P, V>, nd: Node<P, V>,
                                         deliver: (P, Phase, V) -> P, kept: P -> bool, v: V, accepts: Phase -> bool)
    requires Records(e.impl, deliver, kept, v, accepts) && Wf(e, nd)
    ensures kept(nd.proto) ==> kept(Advance(e, nd).proto)
    ensures OnlyBy(e.impl, deliver, kept, v, accepts) && kept(Advance(e, nd).proto) ==> kept(nd.proto)
  {
    hide EndRoundPhase, Wf;
    EndPhaseWf(e, nd);
  }

  lemma LockStep<P, V>(e: Env<P, V>, init: seq<Node<P, V>>, k: nat, x: nat)
    requires Ready(e, init) && 1 <= k <= LastRound(e.c) && x < e.n
    ensures Wf(e, AbsorbAll(e, LockNode(e, init, k - 1, x), Inbound(e, init, k - 1, x)))
    ensures LockNode(e, init, k, x) == Advance(e, AbsorbAll(e, LockNode(e, init, k - 1, x), Inbound(e, init, k - 1, x)))
  {
    hide Advance, AbsorbAll, PhaseAt;
    RoundDoneShape(e, LockNode(e, init, k - 1, x), Inbound(e, init, k - 1, x), x, k - 1);
  }

  lemma LockPhase<P, V>(e: Env<P, V>, init: seq<Node<P, V>>, r: nat, x: nat)
    requires Ready(e, init) && r <= LastRound(e.c) && x < e.n
    ensures LockNode(e, init, r, x).id == x && LockNode(e, init, r, x).ps == PhaseAt(e.c, r - 1)
  {
    hide PhaseAt, Advance, LockNode;
    assert LockInv(e, LockNode(e, init, r, x), x, r);
  }

  /** In round r node z is handed v. */
  ghost predicate DeliveredAt<P, V>(e: Env<P, V>, init: seq<Node<P, V>>, r: nat, z: nat, v: V)
    requires Ready(e, init) && r <= LastRound(e.c) && z < e.n
  {
    exists k :: 0 <= k < |Inbound(e, init, r, z)| && DeliversTo(Inbound(e, init, r, z)[k].message, z, v)
  }

  lemma RoundRecords<P(!new), V(!new)>(e: Env<P, V>, init: seq<Node<P, V>>, r: nat, x: nat,
                                       deliver: (P, Phase, V) -> P, kept: P -> bool, v: V, accepts: Phase -> bool)
    requires Ready(e, init) && Records(e.impl, deliver, kept, v, accepts) && r <= LastRound(e.c) && x < e.n
    ensures var before := if r == 0 then init[x].proto else StateAt(e, init, r - 1, x);
            && (kept(before) ==> kept(StateAt(e, init, r, x)))
            && (accepts(PhaseIn(e.c, r)) && DeliveredAt(e, init, r, x, v) ==> kept(StateAt(e, init, r, x)))
            && (OnlyBy(e.impl, deliver, kept, v, accepts) && kept(StateAt(e, init, r, x)) ==>
                  kept(before) || (accepts(PhaseIn(e.c, r)) && DeliveredAt(e, init, r, x, v)))
  {
    hide Records, OnlyBy, Advance, Inbound, AbsorbAll, PhaseAt, DeliversTo;
    LockPhase(e, init, r, x);
    AbsorbAllRecords(e, LockNode(e, init, r, x), Inbound(e, init, r, x), deliver, kept, v, accepts);
    if r == 0 {
      FirstRecords(e, init, x, deliver, kept, v, accepts);
    } else {
      LockStep(e, init, r, x);
      var a := AbsorbAll(e, LockNode(e, init, r - 1, x), Inbound(e, init, r - 1, x));
      AdvanceRecords(e, a, deliver, kept, v, accepts);
    }
  }

  lemma FirstRecords<P(!new), V(!new)>(e: Env<P, V>, init: seq<Node<P, V>>, x: nat,
                                       deliver: (P, Phase, V) -> P, kept: P -> bool, v: V, accepts: Phase -> bool)
    requires Ready(e, init) && Records(e.impl, deliver, kept, v, accepts) && x < e.n
    ensures kept(init[x].proto) ==> kept(LockNode(e, init, 0, x).proto)
    ensures OnlyBy(e.impl, deliver, kept, v, accepts) && kept(LockNode(e, init, 0, x).proto) ==> kept(init[x].proto)
  {
    hide Records, OnlyBy, Advance;
    assert LockNode(e, init, 0, x) == Advance(e, init[x]);
    assert Fresh(init[x], e.n);
    AdvanceRecords(e, init[x], deliver, kept, v, accepts);
  }

  lemma {:induction false} StateKeeps<P(!new), V(!new)>(
    e: Env<P, V>, init: seq<Node<P, V>>, r: nat, k: nat, x: nat, deliver: (P, Phase, V) -> P, kept: P -> bool, v: V,
    accepts: Phase -> bool)
    requires Ready(e, init) && Records(e.impl, deliver, kept, v, accepts) && r <= k <= LastRound(e.c) && x < e.n
    requires kept(StateAt(e, init, r, x))
    ensures kept(StateAt(e, init, k, x))
    decreases k
  {
    hide Records, Ready, StateAt;
    if r < k {
      StateKeeps(e, init, r, k - 1, x, deliver, kept, v, accepts);
      RoundRecords(e, init, k, x, deliver, kept, v, accepts);
    }
  }

  /** A value handled at its last hop in an accepting phase stays recorded there. */
  lemma HandledIsKept<P(!new), V(!new)>(
    e: Env<P, V>, init: seq<Node<P, V>>, r: nat, from: nat, y: nat, last: nat, deliver: (P, Phase, V) -> P,
    kept: P -> bool, v: V, accepts: Phase -> bool)
    requires Ready(e, init) && r <= last <= LastRound(e.c) && y < e.n && HandledBy(e, init, r, from, y, [y], v)
    requires Records(e.impl, deliver, kept, v, accepts) && accepts(PhaseIn(e.c, r))
    ensures kept(StateAt(e, init, last, y))
  {
    hide Records, Ready, StateAt, Inbound, PhaseAt;
    var k :| 0 <= k < |Inbound(e, init, r, y)| && Carries(Inbound(e, init, r, y)[k].message, [y], v);
    CarriedSpawns(Inbound(e, init, r, y)[k].message, [y], v);
    RoundRecords(e, init, r, y, deliver, kept, v, accepts);
    StateKeeps(e, init, r, last, y, deliver, kept, v, accepts);
  }

  lemma {:induction false} KeptWasDelivered<P(!new), V(!new)>(
    e: Env<P, V>, init: seq<Node<P, V>>, r: nat, z: nat, deliver: (P, Phase, V) -> P, kept: P -> bool, v: V,
    accepts: Phase -> bool) returns (s: nat)
    requires Ready(e, init) && r <= LastRound(e.c) && z < e.n && !kept(init[z].proto) && kept(StateAt(e, init, r, z))
    requires Records(e.impl, deliver, kept, v, accepts) && OnlyBy(e.impl, deliver, kept, v, accepts)
    ensures s <= r && accepts(PhaseIn(e.c, s)) && DeliveredAt(e, init, s, z, v)
    decreases r
  {
    hide Records, OnlyBy, StateAt, PhaseIn, DeliveredAt;
    RoundRecords(e, init, r, z, deliver, kept, v, accepts);
    if r > 0 && kept(StateAt(e, init, r - 1, z)) {
      s := KeptWasDelivered(e, init, r - 1, z, deliver, kept, v, accepts);
    } else {
      s := r;
    }
  }

  /** A value is recorded if and only if it was at the start or has been delivered in an accepting phase. */
  lemma KeptIffDelivered<P(!new), V(!new)>(
    e: Env<P, V>, init: seq<Node<P, V>>, r: nat, z: nat, deliver: (P, Phase, V) -> P, kept: P -> bool, v: V,
    accepts: Phase -> bool)
    requires Ready(e, init) && r <= LastRound(e.c) && z < e.n
    requires Records(e.impl, deliver, kept, v, accepts) && OnlyBy(e.impl, deliver, kept, v, accepts)
    ensures kept(StateAt(e, init, r, z)) <==>
              kept(init[z].proto) || exists s: nat :: s <= r && accepts(PhaseIn(e.c, s)) && DeliveredAt(e, init, s, z, v)
  {
    hide Records, OnlyBy, StateAt, PhaseIn, DeliveredAt;
    if kept(init[z].proto) {
      RoundRecords(e, init, 0, z, deliver, kept, v, accepts);
      StateKeeps(e, init, 0, r, z, deliver, kept, v, accepts);
    } else if kept(StateAt(e, init, r, z)) {
      var s := KeptWasDelivered(e, init, r, z, deliver, kept, v, accepts);
    }
    if s: nat :| s <= r && accepts(PhaseIn(e.c, s)) && DeliveredAt(e, init, s, z, v) {
      RoundRecords(e, init, s, z, deliver, kept, v, accepts);
      StateKeeps(e, init, s, r, z, deliver, kept, v, accepts);
    }
  }

  // ---- one copy, one proxy ----

  /** No hop is its own successor, as on every path of find_paths. */
  predicate StepsAway(hops: seq<nat>) {
    forall k :: 0 <= k < |hops| - 1 ==> hops[k] != hops[k + 1]
  }

  lemma DeliveryBrings<V>(m: Message<V>, z: nat, v: V)
    requires DeliversTo(m, z, v)
    ensures Brings(m, v, {z})
  {
  }

  /** Along its walk a message is delivered at the last hop only. */
  lemma DeliveredAtEnd<V>(m: Message<V>, hops: seq<nat>, v: V)
    requires |hops| >= 1 && Carries(m, hops, v) && StepsAway(hops) && DeliversTo(m, hops[0], v)
    ensures |hops| == 1
  {
  }

  /** The only copy of v for z is delivered in round s just when the walk ends in it. */
  lemma DeliveryEndsWalk<P(!new), V(!new)>(e: Env<P, V>, init: seq<Node<P, V>>, x: nat, m: Message<V>, hops: seq<nat>,
                                           v: V, z: nat, s: nat)
    requires Ready(e, init) && Forwards(e.impl) && s <= LastRound(e.c) && z < e.n
    requires Valid(x, hops, e.n) && |hops| >= 1 && StepsAway(hops) && hops[|hops| - 1] == z
    requires SoleAt(e, init, 0, x, m, v, {z}) && Carries(m, hops, v)
    requires forall u: nat {:trigger NoNews(e, init, u, v, {z})} :: 0 < u <= s ==> NoNews(e, init, u, v, {z})
    requires DeliveredAt(e, init, s, z, v)
    ensures EndsBy(x, hops, e.n, 0, s)
  {
    hide Ready, Forwards, SoleAt, Carries, Walk, DeliversTo, Brings, Target, EndsBy, Inbound, Held;
    var k :| 0 <= k < |Inbound(e, init, s, z)| && DeliversTo(Inbound(e, init, s, z)[k].message, z, v);
    var m' := Inbound(e, init, s, z)[k].message;
    DeliveryBrings(m', z, v);
    HandledAlongWalk(e, init, 0, x, m, hops, v, {z}, s, z);
    var rest := Walk(x, hops, 0, s, e.n).1;
    WalkShape(x, hops, 0, s, e.n);
    assert StepsAway(rest);
    assert HandlesAt(e, init, s, z, v, {z});
    DeliveredAtEnd(m', rest, v);
    ArrivalEnds(x, hops, 0, s, e.n);
  }

  /**
   * If one message brings v to z, and z accepts it just up to the end of round `open`, z has it at the end of round
   * `last` if and only if the message's hops can be travelled by round `open`.
   */
  lemma KeptIff<P(!new), V(!new)>(
    e: Env<P, V>, init: seq<Node<P, V>>, x: nat, m: Message<V>, hops: seq<nat>, v: V, z: nat, open: nat, last: nat,
    deliver: (P, Phase, V) -> P, kept: P -> bool, accepts: Phase -> bool)
    requires Ready(e, init) && open <= last <= LastRound(e.c) && z < e.n
    requires Records(e.impl, deliver, kept, v, accepts) && OnlyBy(e.impl, deliver, kept, v, accepts)
    requires forall s: nat {:trigger PhaseIn(e.c, s)} :: s <= last ==> (accepts(PhaseIn(e.c, s)) <==> s <= open)
    requires Valid(x, hops, e.n) && |hops| >= 1 && StepsAway(hops) && hops[|hops| - 1] == z
    requires SoleAt(e, init, 0, x, m, v, {z}) && Carries(m, hops, v) && !kept(init[z].proto)
    requires forall u: nat {:trigger NoNews(e, init, u, v, {z})} :: 0 < u <= open ==> NoNews(e, init, u, v, {z})
    ensures kept(StateAt(e, init, last, z)) <==> EndsBy(x, hops, e.n, 0, open)
  {
    hide Carries, Records, OnlyBy, NoNews, PhaseIn, StateAt, DeliveredAt, HandledBy, Held;
    RecordsForwards(e.impl, deliver, kept, v, accepts);
    if EndsBy(x, hops, e.n, 0, open) {
      var r, from := PathIsRealised(e, init, x, hops, 0, open, m, v);
      HandledIsKept(e, init, r, from, z, last, deliver, kept, v, accepts);
    }
    if kept(StateAt(e, init, last, z)) {
      var s := KeptWasDelivered(e, init, last, z, deliver, kept, v, accepts);
      DeliveryEndsWalk(e, init, x, m, hops, v, z, s);
      EndsByLater(x, hops, e.n, 0, s, open);
    }
  }

  lemma EndsByLater(x: nat, hops: seq<nat>, n: nat, start: nat, early: nat, late: nat)
    requires EndsBy(x, hops, n, start, early) && early <= late
    ensures EndsBy(x, hops, n, start, late)
  {
    hide PathFinder.Travels;
  }

  // ---- new messages ----

  /** What the end of round r makes node x send. */
  ghost function Emitted<P, V>(e: Env<P, V>, init: seq<Node<P, V>>, r: nat, x: nat): seq<Message<V>>
    requires Ready(e, init) && r <= LastRound(e.c) && x < e.n
  {
    e.impl.roundEnd(StateAt(e, init, r, x), x, PhaseAt(e.c, r - 1), PhaseAt(e.c, r), r).1
  }

  lemma EmittedIsOutgoing<P, V>(e: Env<P, V>, init: seq<Node<P, V>>, r: nat, x: nat)
    requires Ready(e, init) && r < LastRound(e.c) && x < e.n
    ensures PreBatch(e, init, r + 1, x).outgoing == Emitted(e, init, r, x)
  {
    hide LockNode, Inbound, AbsorbAll, EndRoundPhase, Wf, LockInv, Fresh;
    var nd, ts := LockNode(e, init, r, x), Inbound(e, init, r, x);
    BatchConserves(e, init, r, x);
    AbsorbAllKeeps(e, nd, ts);
    LockPhase(e, init, r, x);
    LockRound(e, init, r, x);
    PhaseSchedule(e.c, r - 1);
  }

  lemma LockRound<P, V>(e: Env<P, V>, init: seq<Node<P, V>>, r: nat, x: nat)
    requires Ready(e, init) && r <= LastRound(e.c) && x < e.n
    ensures LockNode(e, init, r, x).round == r
  {
    hide PhaseAt, Advance, LockNode;
    assert LockInv(e, LockNode(e, init, r, x), x, r);
  }

  lemma EmittedIsHeld<P, V>(e: Env<P, V>, init: seq<Node<P, V>>, r: nat, x: nat, m: Message<V>)
    requires Ready(e, init) && r < LastRound(e.c) && x < e.n && m in Emitted(e, init, r, x)
    ensures Held(e, init, r + 1, x, m)
  {
    hide PreBatch, Emitted;
    EmittedIsOutgoing(e, init, r, x);
  }

  // ---- the messages of a multicast at the start ----

  /** What is put in outgoing_messages before the query starts is sent from round 0 on. */
  lemma LaunchedIsHeld<P, V>(e: Env<P, V>, init: seq<Node<P, V>>, x: nat, m: Message<V>)
    requires Ready(e, init) && x < e.n && m in init[x].outgoing
    ensures Held(e, init, 0, x, m)
  {
    EndPhaseShape(e, init[x]);
  }

  /** An onion brings its value to the end of its path and nowhere else. */
  lemma {:induction false} OnionBrings<V(!new)>(query: int, path: seq<nat>, v: V, z: nat)
    requires |path| >= 1
    ensures Brings(Onion(query, path, v), v, {z}) <==> path[|path| - 1] == z
    decreases |path|
  {
    if |path| > 1 { OnionBrings(query, path[1..], v, z); }
  }

  /** v leaves x in onions along these paths, and nobody else has it. */
  ghost predicate LaunchedAlone<P, V(!new)>(e: Env<P, V>, init: seq<Node<P, V>>, x: nat, v: V, paths: seq<seq<nat>>)
    requires |init| == e.n && x < e.n
  {
    && (forall i :: 0 <= i < |paths| ==> |paths[i]| >= 1 && Onion(e.query, paths[i], v) in init[x].outgoing)
    && (forall y: nat, m, z: nat {:trigger m in init[y].waiting + init[y].outgoing, Brings(m, v, {z})} ::
          y < e.n && m in init[y].waiting + init[y].outgoing && Brings(m, v, {z}) ==>
            y == x && exists i :: 0 <= i < |paths| && m == Onion(e.query, paths[i], v))
  }

  lemma LaunchIsSole<P(!new), V(!new)>(e: Env<P, V>, init: seq<Node<P, V>>, x: nat, v: V, paths: seq<seq<nat>>, i: nat)
    requires Ready(e, init) && x < e.n && i < |paths| && LaunchedAlone(e, init, x, v, paths)
    requires forall j :: 0 <= j < |paths| && paths[j][|paths[j]| - 1] == paths[i][|paths[i]| - 1] ==> j == i
    requires forall p, id, a: PhaseState, b: PhaseState :: a.phase == First && b.phase == First ==>
               e.impl.roundEnd(p, id, a, b, -1).1 == []
    ensures SoleAt(e, init, 0, x, Onion(e.query, paths[i], v), v, {paths[i][|paths[i]| - 1]})
  {
    var m, z := Onion(e.query, paths[i], v), paths[i][|paths[i]| - 1];
    LaunchedIsHeld(e, init, x, m);
    forall y: nat, m' {:trigger Held(e, init, 0, y, m')} |
      y < e.n && Held(e, init, 0, y, m') && Brings(m', v, {z})
      ensures y == x && m' == m
    {
      HeldAtLaunch(e, init, y, m');
      var j :| 0 <= j < |paths| && m' == Onion(e.query, paths[j], v);
      OnionBrings(e.query, paths[j], v, z);
    }
  }

  lemma HeldAtLaunch<P(!new), V(!new)>(e: Env<P, V>, init: seq<Node<P, V>>, y: nat, m: Message<V>)
    requires Ready(e, init) && y < e.n && Held(e, init, 0, y, m)
    requires forall p, id, a: PhaseState, b: PhaseState :: a.phase == First && b.phase == First ==>
               e.impl.roundEnd(p, id, a, b, -1).1 == []
    ensures m in init[y].waiting + init[y].outgoing
  {
    PhaseSchedule(e.c, -1);
    assert Fresh(init[y], e.n);
  }
}
