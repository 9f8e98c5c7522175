/**
 * Query numbers: waiting_messages outlives its query (src/ProtocolState_impl.h:48-62), and a message of an earlier query
 * is discarded where it arrives (src/MeterClient.cpp:62-79). What a query needs from the one before it, and what goes
 * wrong otherwise.
 */
module Queries {
  import opened Overlay
  import opened Phases
  import opened RoundEngine
  import opened AsyncRefinement
  import opened Routing
  import opened Forwarding
  import opened Hft
  import opened Crusader
  import Failures

  /** Every layer of m is of the query. */
  predicate QueryIs<V>(m: Message<V>, query: int) {
    m.query == query && (m.body.Layer? ==> QueryIs(m.body.inner, query))
  }

  ghost predicate AllOf<V>(ms: seq<Message<V>>, query: int) {
    forall m :: m in ms ==> QueryIs(m, query)
  }

  /** What the variant sends on its own is of its query, given that its state holds messages of the query alone. */
  ghost predicate KeepsQuery<P(!new), V(!new)>(impl: Impl<P, V>, query: int, good: P -> bool) {
    && (forall p, id, ph, m :: good(p) && QueryIs(m, query) ==>
          good(impl.receive(p, id, ph, m).0) && AllOf(impl.receive(p, id, ph, m).1, query))
    && (forall p, id, a, b, r :: good(p) ==>
          good(impl.roundEnd(p, id, a, b, r).0) && AllOf(impl.roundEnd(p, id, a, b, r).1, query))
  }

  /** CT and BFT: whatever the end of a round sends is of the query. */
  lemma ForwardingKeepsQuery<P(!new), V(!new)>(impl: Impl<P, V>, query: int)
    requires Forwards(impl)
    requires forall p, id, a, b, r :: AllOf(impl.roundEnd(p, id, a, b, r).1, query)
    ensures KeepsQuery(impl, query, (p: P) => true)
  {
  }

  ghost function FloodsOf(query: int): HftState -> bool {
    (p: HftState) => AllOf(p.current, query) && AllOf(p.relay, query)
  }

  lemma HftKeepsQuery(n: nat, query: int)
    ensures KeepsQuery(HftImpl(n, query), query, FloodsOf(query))
  {
    hide Target, InOverlay, StillFlooding;
    var impl, good := HftImpl(n, query), FloodsOf(query);
    forall p: HftState, id: nat, a: PhaseState, b: PhaseState, r: int | good(p)
      ensures good(impl.roundEnd(p, id, a, b, r).0) && AllOf(impl.roundEnd(p, id, a, b, r).1, query)
    {
      if id < n && r >= -1 {
        StillFloodingSubset(ChangePhase(p, a, b).current, Target(id, r + 1, n));
      }
    }
  }

  lemma {:induction false} StillFloodingSubset(ms: seq<Message<Contribution>>, target: nat)
    ensures forall m :: m in StillFlooding(ms, target) ==> m in ms
  {
    if ms != [] { StillFloodingSubset(ms[1..], target); }
  }

  // ---- when a query is left alone by the one before ----

  /** From round r on, x never gossips with y within the overlay. */
  ghost predicate NoChance(c: Config, x: nat, y: nat, r: nat, n: nat)
    requires x < n
  {
    forall s: nat {:trigger Target(x, s, n)} :: r <= s <= LastRound(c) ==> Target(x, s, n) != y
  }

  /** m is of the query, or a leftover that will not be sent. */
  ghost predicate Harmless<P, V>(e: Env<P, V>, x: nat, r: nat, m: Message<V>)
    requires x < e.n
  {
    QueryIs(m, e.query) || (m.query != e.query && !m.flood && NoChance(e.c, x, m.dest, r, e.n))
  }

  ghost predicate AllHarmless<P, V>(e: Env<P, V>, x: nat, r: nat, ms: seq<Message<V>>)
    requires x < e.n
  {
    forall m :: m in ms ==> Harmless(e, x, r, m)
  }

  /** Messages are built with one query number; leftovers are not floods. */
  ghost predicate Uniform<V>(m: Message<V>, query: int) {
    QueryIs(m, m.query) && (m.query != query ==> !m.flood)
  }

  ghost predicate InitOk<P, V>(e: Env<P, V>, init: seq<Node<P, V>>, good: P -> bool)
    requires Ready(e, init)
  {
    forall j :: 0 <= j < e.n ==>
      good(init[j].proto) && forall m :: m in init[j].waiting + init[j].outgoing ==> Uniform(m, e.query)
  }

  ghost predicate Undisturbed<P, V>(e: Env<P, V>, init: seq<Node<P, V>>)
    requires Ready(e, init)
  {
    forall j, m :: 0 <= j < e.n && m in init[j].waiting + init[j].outgoing && m.query != e.query ==>
      NoChance(e.c, j, m.dest, 0, e.n)
  }

  lemma AbsorbQuery<P(!new), V(!new)>(e: Env<P, V>, nd: Node<P, V>, t: Transport<V>, good: P -> bool)
    requires KeepsQuery(e.impl, e.query, good) && good(nd.proto) && QueryIs(t.message, e.query)
    ensures var a := Absorb(e, nd, t);
            good(a.proto) && forall m :: m in a.waiting ==> m in nd.waiting || QueryIs(m, e.query)
  {
    var m := t.message;
    var popped := if m.remaining == [] then m else m.(dest := m.remaining[0], remaining := m.remaining[1..]);
    assert QueryIs(popped, e.query);
  }

  lemma {:induction false} AbsorbAllQuery<P(!new), V(!new)>(e: Env<P, V>, nd: Node<P, V>, ts: seq<Transport<V>>,
                                                            good: P -> bool)
    requires KeepsQuery(e.impl, e.query, good) && good(nd.proto)
    requires forall k :: 0 <= k < |ts| ==> QueryIs(ts[k].message, e.query)
    ensures var a := AbsorbAll(e, nd, ts);
            good(a.proto) && forall m :: m in a.waiting ==> m in nd.waiting || QueryIs(m, e.query)
    decreases |ts|
  {
    hide KeepsQuery, Absorb, QueryIs;
    if ts != [] {
      AbsorbQuery(e, nd, ts[0], good);
      AbsorbAllQuery(e, Absorb(e, nd, ts[0]), ts[1..], good);
    }
  }

  /** Node x before its round-r batch: its state is good and what it holds is harmless. */
  ghost predicate HoldsHarmless<P, V>(e: Env<P, V>, nd: Node<P, V>, r: nat, x: nat, good: P -> bool)
    requires x < e.n
  {
    good(nd.proto) && AllHarmless(e, x, r, nd.waiting + nd.outgoing)
  }

  lemma EndPhaseQuery<P(!new), V(!new)>(e: Env<P, V>, nd: Node<P, V>, r: nat, x: nat, good: P -> bool)
    requires x < e.n && KeepsQuery(e.impl, e.query, good) && HoldsHarmless(e, nd, r, x, good)
    ensures HoldsHarmless(e, EndPhase(e, nd), r, x, good)
  {
    hide EndRoundPhase, NoChance, InOverlay;
  }

  /** What x sends in round r is of the query. */
  lemma SendsQuery<P(!new), V(!new)>(e: Env<P, V>, init: seq<Node<P, V>>, r: nat, x: nat, k: nat, good: P -> bool)
    requires Ready(e, init) && r <= LastRound(e.c) && x < e.n && HoldsHarmless(e, PreBatch(e, init, r, x), r, x, good)
    requires r < |LockNode(e, init, r, x).sent| && k < |LockNode(e, init, r, x).sent[r]|
    ensures QueryIs(LockNode(e, init, r, x).sent[r][k].message, e.query)
  {
    hide Target, LockNode, PreBatch, Ready;
    var m := LockNode(e, init, r, x).sent[r][k].message;
    assert Payloads(LockNode(e, init, r, x).sent[r])[k] == m;
    BatchMembers(e, init, r, x, m);
    if m != Message(e.query, Target(x, r, e.n), false, [], Null) {
      var p := PreBatch(e, init, r, x);
      assert m in p.waiting + p.outgoing;
      assert Harmless(e, x, r, m);
    }
  }

  lemma KeepsHarmless<P(!new), V(!new)>(e: Env<P, V>, init: seq<Node<P, V>>, r: nat, x: nat, good: P -> bool)
    requires Ready(e, init) && r < LastRound(e.c) && x < e.n && KeepsQuery(e.impl, e.query, good)
    requires HoldsHarmless(e, PreBatch(e, init, r, x), r, x, good)
    requires forall k :: 0 <= k < |Inbound(e, init, r, x)| ==> QueryIs(Inbound(e, init, r, x)[k].message, e.query)
    ensures HoldsHarmless(e, PreBatch(e, init, r + 1, x), r + 1, x, good)
  {
    hide Target, LockNode, LockInv, Inbound, KeepsQuery, QueryIs, AbsorbAll, Absorb, EndPhase, PhaseAt, Advance, PreBatch;
    hide Held, Harmless, Ready;
    var p, nd, ts := PreBatch(e, init, r, x), LockNode(e, init, r, x), Inbound(e, init, r, x);
    PreBatchSends(e, init, r, x);
    assert nd.proto == p.proto by { NextRoundProto(e, p); }
    RoundDoneShape(e, nd, ts, x, r);
    NothingOutgoing(e, init, r, x);
    var a := AbsorbAll(e, nd, ts);
    AbsorbAllQuery(e, nd, ts, good);
    forall m | m in a.waiting + a.outgoing ensures Harmless(e, x, r + 1, m) {
      StillHarmless(e, init, r, x, m, good);
    }
    EndPhaseQuery(e, a, r + 1, x, good);
    assert PreBatch(e, init, r + 1, x) == EndPhase(e, a) by { NextPreBatch(e, init, r, x); }
  }

  lemma NextRoundProto<P, V>(e: Env<P, V>, nd: Node<P, V>)
    requires nd.id < e.n && nd.round >= -1
    ensures NextRound(e, nd).proto == nd.proto
  {
  }

  lemma NothingOutgoing<P, V>(e: Env<P, V>, init: seq<Node<P, V>>, r: nat, x: nat)
    requires Ready(e, init) && r <= LastRound(e.c) && x < e.n
    ensures LockNode(e, init, r, x).outgoing == []
  {
    hide PreBatch, LockNode;
    BatchConserves(e, init, r, x);
  }

  lemma NextPreBatch<P, V>(e: Env<P, V>, init: seq<Node<P, V>>, r: nat, x: nat)
    requires Ready(e, init) && r < LastRound(e.c) && x < e.n
    ensures PreBatch(e, init, r + 1, x) == EndPhase(e, AbsorbAll(e, LockNode(e, init, r, x), Inbound(e, init, r, x)))
  {
    hide EndPhase, AbsorbAll, LockNode, Inbound;
  }

  lemma StillHarmless<P(!new), V(!new)>(e: Env<P, V>, init: seq<Node<P, V>>, r: nat, x: nat, m: Message<V>,
                                        good: P -> bool)
    requires Ready(e, init) && r < LastRound(e.c) && x < e.n && HoldsHarmless(e, PreBatch(e, init, r, x), r, x, good)
    requires m in LockNode(e, init, r, x).waiting || QueryIs(m, e.query)
    ensures Harmless(e, x, r + 1, m)
  {
    hide Target, LockNode, LockInv, QueryIs, PreBatch, Ready;
    if !QueryIs(m, e.query) {
      BatchMembers(e, init, r, x, m);
      var p := PreBatch(e, init, r, x);
      assert m in p.waiting + p.outgoing;
      assert Harmless(e, x, r, m);
    }
  }

  lemma {:induction false} AlwaysHarmless<P(!new), V(!new)>(e: Env<P, V>, init: seq<Node<P, V>>, r: nat, x: nat,
                                                            good: P -> bool)
    requires Ready(e, init) && r <= LastRound(e.c) && x < e.n && KeepsQuery(e.impl, e.query, good)
    requires InitOk(e, init, good) && Undisturbed(e, init)
    ensures HoldsHarmless(e, PreBatch(e, init, r, x), r, x, good)
    ensures forall k :: 0 <= k < |Inbound(e, init, r, x)| ==> QueryIs(Inbound(e, init, r, x)[k].message, e.query)
    decreases r, 1
  {
    hide LockNode, LockInv, KeepsQuery, Ready, InitOk, Undisturbed, HoldsHarmless, PreBatch;
    HarmlessAt(e, init, r, x, good);
    var y := Predecessor(x, r, e.n);
    HarmlessAt(e, init, r, y, good);
    assert |LockNode(e, init, r, y).sent| > r by { BatchMembers(e, init, r, y, Message(0, 0, false, [], Null)); }
    forall k | 0 <= k < |Inbound(e, init, r, x)| ensures QueryIs(Inbound(e, init, r, x)[k].message, e.query) {
      SendsQuery(e, init, r, y, k, good);
    }
  }

  lemma {:induction false} HarmlessAt<P(!new), V(!new)>(e: Env<P, V>, init: seq<Node<P, V>>, r: nat, x: nat,
                                                        good: P -> bool)
    requires Ready(e, init) && r <= LastRound(e.c) && x < e.n && KeepsQuery(e.impl, e.query, good)
    requires InitOk(e, init, good) && Undisturbed(e, init)
    ensures HoldsHarmless(e, PreBatch(e, init, r, x), r, x, good)
    decreases r, 0
  {
    hide LockNode, LockInv, KeepsQuery, EndPhase, PhaseAt, Advance, Fresh;
    if r == 0 {
      assert HoldsHarmless(e, init[x], 0, x, good);
      EndPhaseQuery(e, init[x], 0, x, good);
    } else {
      AlwaysHarmless(e, init, r - 1, x, good);
      KeepsHarmless(e, init, r - 1, x, good);
    }
  }

  /** A leftover is sent in the first round in which its destination is the gossip target. */
  lemma LeftoverIsSent<P(!new), V(!new)>(e: Env<P, V>, init: seq<Node<P, V>>, x: nat, m: Message<V>, s: nat)
    requires Ready(e, init) && x < e.n && m in init[x].waiting + init[x].outgoing && !m.flood
    requires s <= LastRound(e.c) && Target(x, s, e.n) == m.dest && OneQuery(e, init)
    ensures m.query == e.query
  {
    hide Target, LockNode, LockInv, PreBatch, PhaseAt, Inbound;
    var first := FindChance(x, m.dest, 0, s, e.n);
    InitialIsHeld(e, init, x, m);
    HeldUntil(e, init, 0, first, x, m);
    BatchMembers(e, init, first, x, m);
    GossipInverse(x, m.dest, first, e.n);
    SentIsInbound(e, init, first, x, m.dest);
    var ts := Inbound(e, init, first, m.dest);
    assert m in Payloads(ts);
    var k :| 0 <= k < |Payloads(ts)| && Payloads(ts)[k] == m;
    assert ts[k].message == m;
  }

  lemma LeftoverWaits<P(!new), V(!new)>(e: Env<P, V>, init: seq<Node<P, V>>, x: nat, m: Message<V>)
    requires Ready(e, init) && x < e.n && m in init[x].waiting + init[x].outgoing && !m.flood
    requires OneQuery(e, init) && m.query != e.query
    ensures NoChance(e.c, x, m.dest, 0, e.n)
  {
    hide Target;
    forall s: nat | s <= LastRound(e.c) ensures Target(x, s, e.n) != m.dest {
      if Target(x, s, e.n) == m.dest { LeftoverIsSent(e, init, x, m, s); }
    }
  }

  lemma SentIsInbound<P, V>(e: Env<P, V>, init: seq<Node<P, V>>, r: nat, x: nat, y: nat)
    requires Ready(e, init) && r <= LastRound(e.c) && x < e.n && y < e.n && Predecessor(y, r, e.n) == x
    ensures r < |LockNode(e, init, r, x).sent| && Inbound(e, init, r, y) == LockNode(e, init, r, x).sent[r]
  {
    hide LockNode, PhaseAt, Predecessor;
    assert LockInv(e, LockNode(e, init, r, x), x, r);
  }

  lemma InitialIsHeld<P, V>(e: Env<P, V>, init: seq<Node<P, V>>, x: nat, m: Message<V>)
    requires Ready(e, init) && x < e.n && m in init[x].waiting + init[x].outgoing
    ensures Held(e, init, 0, x, m)
  {
    EndPhaseShape(e, init[x]);
  }

  /**
   * The premise of the refinement theorem, as a condition on the nodes when the query starts: all messages of the
   * synchronous execution are of the query if and only if no leftover has a chance to be sent.
   */
  lemma OneQueryIff<P(!new), V(!new)>(e: Env<P, V>, init: seq<Node<P, V>>, good: P -> bool)
    requires Ready(e, init) && e.prior < e.query && KeepsQuery(e.impl, e.query, good) && InitOk(e, init, good)
    ensures OneQuery(e, init) <==> Undisturbed(e, init)
  {
    hide Target, LockNode, LockInv, PreBatch, PhaseAt, Inbound, KeepsQuery;
    if Undisturbed(e, init) {
      forall r: nat, j: nat | r <= LastRound(e.c) && j < e.n ensures OfQuery(Inbound(e, init, r, j), e.query) {
        AlwaysHarmless(e, init, r, j, good);
      }
    }
    if OneQuery(e, init) {
      forall j, m | 0 <= j < |init| && m in init[j].waiting + init[j].outgoing && m.query != e.query
        ensures j < e.n && NoChance(e.c, j, m.dest, 0, e.n)
      {
        LeftoverWaits(e, init, j, m);
      }
    }
  }

  // ---- what a leftover does ----

  ghost predicate InRound<P, V>(e: Env<P, V>, nd: Node<P, V>, r: nat) {
    nd.id < e.n && nd.started && InOverlay(nd.ps) && nd.round == r
  }

  function DispatchAll<P, V>(e: Env<P, V>, nd: Node<P, V>, ts: seq<Transport<V>>): (r: Node<P, V>)
    requires Wf(e, nd)
    ensures Wf(e, r) && r.round >= nd.round
    decreases |ts|
  {
    if ts == [] then nd else DispatchAll(e, Dispatch(e, nd, ts[0]), ts[1..])
  }

  /** The final message of the round, if it is of the query. */
  predicate Ends<V>(t: Transport<V>, round: int, query: int) {
    t.round == round && t.final && t.message.query == query
  }

  lemma DispatchInRound<P, V>(e: Env<P, V>, nd: Node<P, V>, r: nat, t: Transport<V>)
    requires Wf(e, nd) && InRound(e, nd, r)
    ensures !Ends(t, r, e.query) ==>
              var d := Dispatch(e, nd, t); InRound(e, d, r) && d.id == nd.id && d.ping == nd.ping
    ensures Ends(t, r, e.query) && t.sender == Predecessor(nd.id, r, e.n) ==>
              var d := Dispatch(e, nd, t); d.round > r || d.last
  {
    hide Target, PhaseAt, EndPhase, NextRound;
    if t.sender == Predecessor(nd.id, r, e.n) { GossipInverse(t.sender, nd.id, r, e.n); }
    if Ends(t, r, e.query) { Failures.EndRoundFollows(e, Absorb(e, nd, t)); }
  }

  /** A batch ends the receiver's round if and only if its final message is of the query. */
  lemma {:induction false} BatchEndsRound<P, V>(e: Env<P, V>, nd: Node<P, V>, r: nat, ts: seq<Transport<V>>)
    requires Wf(e, nd) && InRound(e, nd, r) && BatchOk(ts, Predecessor(nd.id, r, e.n), r)
    ensures var d := DispatchAll(e, nd, ts);
            if ts[|ts| - 1].message.query == e.query then d.round > r || d.last
            else InRound(e, d, r) && d.id == nd.id && d.ping == nd.ping
    decreases |ts|
  {
    hide Dispatch, Wf, Predecessor;
    DispatchInRound(e, nd, r, ts[0]);
    if |ts| > 1 {
      BatchEndsRound(e, Dispatch(e, nd, ts[0]), r, ts[1..]);
    }
  }

  /** No final message of the round arrives, and every timeout follows a reply of the predecessor's. */
  predicate Answered<V>(evs: seq<Event<V>>, ping: bool, pred: nat, round: nat, query: int)
    decreases |evs|
  {
    evs == [] ||
    match evs[0]
    case Start => Answered(evs[1..], ping, pred, round, query)
    case Deliver(t) => !Ends(t, round, query) && Answered(evs[1..], ping, pred, round, query)
    case TimeoutFires(ok) => ping && Answered(evs[1..], false, pred, round, query)
    case PingReply(sender) => Answered(evs[1..], ping || sender == pred, pred, round, query)
  }

  lemma {:induction false} RoundGoesOn<P, V>(e: Env<P, V>, nd: Node<P, V>, r: nat, evs: seq<Event<V>>)
    requires Wf(e, nd) && InRound(e, nd, r) && Answered(evs, nd.ping, Predecessor(nd.id, r, e.n), r, e.query)
    ensures InRound(e, RunEvents(e, nd, evs), r)
    decreases |evs|
  {
    hide Dispatch, EndRound, Predecessor, PhaseAt;
    if evs != [] {
      match evs[0] {
        case Deliver(t) => DispatchInRound(e, nd, r, t);
        case _ =>
      }
      RoundGoesOn(e, React(e, nd, evs[0]), r, evs[1..]);
    }
  }

  /**
   * A leftover at the end of a batch stops the receiver: as long as the sender, alive, answers pings, no timeout ends
   * the round, and its final message will not come again.
   */
  lemma LeftoverStopsReceiver<P, V>(e: Env<P, V>, nd: Node<P, V>, r: nat, ts: seq<Transport<V>>, evs: seq<Event<V>>)
    requires Wf(e, nd) && InRound(e, nd, r) && BatchOk(ts, Predecessor(nd.id, r, e.n), r)
    requires ts[|ts| - 1].message.query != e.query
    requires Answered(evs, nd.ping, Predecessor(nd.id, r, e.n), r, e.query)
    ensures InRound(e, RunEvents(e, DispatchAll(e, nd, ts), evs), r)
  {
    hide Dispatch, Predecessor, Wf, DispatchAll, RunEvents;
    BatchEndsRound(e, nd, r, ts);
    RoundGoesOn(e, DispatchAll(e, nd, ts), r, evs);
  }

  // ---- where leftovers come from ----

  ghost predicate LeftWaiting<P, V>(e: Env<P, V>, init: seq<Node<P, V>>, z: nat, m: Message<V>)
    requires Ready(e, init) && z < e.n
  {
    m in LockNode(e, init, LastRound(e.c) + 1, z).waiting
  }

  lemma LeftWaitingFrom<P(!new), V(!new)>(e: Env<P, V>, init: seq<Node<P, V>>, z: nat, m: Message<V>)
    requires Ready(e, init) && Forwards(e.impl) && z < e.n
    ensures var last := LastRound(e.c);
            LeftWaiting(e, init, z, m) <==>
              || (Held(e, init, last, z, m) && m in LockNode(e, init, last, z).waiting)
              || exists k :: 0 <= k < |Inbound(e, init, last, z)| && m in Spawns(Inbound(e, init, last, z)[k].message)
  {
    hide LockNode, Inbound, AbsorbAll, PhaseAt, Forwards, Spawns, Held, EndRoundPhase, LockInv;
    var last := LastRound(e.c);
    var nd, ts := LockNode(e, init, last, z), Inbound(e, init, last, z);
    BatchMembers(e, init, last, z, m);
    WaitingMembers(e, nd, ts, m);
    LockUnfold(e, init, last, z);
    LastAdvance(e, AbsorbAll(e, nd, ts)) by {
      assert LockInv(e, nd, z, last);
      LastLock(e, nd, z);
      AbsorbAllKeeps(e, nd, ts);
    }
  }

  lemma LastLock<P, V>(e: Env<P, V>, nd: Node<P, V>, z: nat)
    requires LockInv(e, nd, z, LastRound(e.c))
    ensures nd.round == LastRound(e.c)
  {
    hide PhaseAt;
  }

  lemma LastAdvance<P, V>(e: Env<P, V>, nd: Node<P, V>)
    requires Wf(e, nd) && nd.round == LastRound(e.c)
    ensures Advance(e, nd).waiting == nd.waiting
  {
    hide PhaseAt, EndRoundPhase;
    EndPhaseWf(e, nd);
  }

  /**
   * A message of which there is one copy is left waiting when the overlay ends if and only if its hops could not be
   * travelled in time.
   */
  lemma LeftWaitingIff<P(!new), V(!new)>(e: Env<P, V>, init: seq<Node<P, V>>, t: nat, x: nat, m: Message<V>,
                                         hops: seq<nat>, v: V, zs: set<nat>)
    requires Ready(e, init) && Forwards(e.impl) && Valid(x, hops, e.n) && |hops| >= 1 && t <= LastRound(e.c)
    requires SoleAt(e, init, t, x, m, v, zs) && Carries(m, hops, v) && hops[|hops| - 1] in zs
    requires forall s: nat {:trigger NoNews(e, init, s, v, zs)} :: t < s <= LastRound(e.c) ==> NoNews(e, init, s, v, zs)
    ensures (exists z: nat, m' {:trigger LeftWaiting(e, init, z, m')} ::
               z < e.n && LeftWaiting(e, init, z, m') && Brings(m', v, zs))
            <==> !EndsBy(x, hops, e.n, t, LastRound(e.c))
  {
    hide LeftWaiting, Ready, Forwards, SoleAt, Carries, Brings, NoNews, Target, EndsBy, Walk, NextPlace, Held, CopyAt;
    var last := LastRound(e.c);
    var w := Walk(x, hops, t, last, e.n);
    CopyFollowsWalk(e, init, t, x, m, hops, v, zs, last);
    WalkEnds(x, hops, t, last, e.n);
    forall z: nat, m' {:trigger LeftWaiting(e, init, z, m')} |
      z < e.n && LeftWaiting(e, init, z, m') && Brings(m', v, zs)
      ensures NextPlace(w, last, e.n).1 != []
    {
      LeftIsUnfinished(e, init, w, v, zs, z, m');
    }
    if NextPlace(w, last, e.n).1 != [] {
      var z, m' := UnfinishedIsLeft(e, init, w, v, zs);
    }
  }

  lemma WalkEnds(x: nat, hops: seq<nat>, t: nat, last: nat, n: nat)
    requires Valid(x, hops, n) && |hops| >= 1 && t <= last
    ensures NextPlace(Walk(x, hops, t, last, n), last, n).1 == [] <==> EndsBy(x, hops, n, t, last)
  {
    hide Target, EndsBy;
    ArrivesIff(x, hops, t, last, n);
    assert NextPlace(Walk(x, hops, t, last, n), last, n) == Walk(x, hops, t, last + 1, n);
    if Walk(x, hops, t, last + 1, n).1 == [] {
      var s := LastStep(x, hops, t, last + 1, n);
    }
    if s: nat :| t <= s <= last && Arrives(x, hops, t, s, n) {
      StaysEnded(x, hops, t, s + 1, last + 1, n);
    }
  }

  lemma {:induction false} StaysEnded(x: nat, hops: seq<nat>, t: nat, s: nat, r: nat, n: nat)
    requires Valid(x, hops, n) && t <= s <= r && Walk(x, hops, t, s, n).1 == []
    ensures Walk(x, hops, t, r, n).1 == []
    decreases r
  {
    if s < r { StaysEnded(x, hops, t, s, r - 1, n); }
  }

  lemma LeftIsUnfinished<P(!new), V(!new)>(e: Env<P, V>, init: seq<Node<P, V>>, w: (nat, seq<nat>), v: V, zs: set<nat>,
                                           z: nat, m': Message<V>)
    requires Ready(e, init) && Forwards(e.impl) && Valid(w.0, w.1, e.n) && CopyAt(e, init, LastRound(e.c), w, v, zs)
    requires z < e.n && LeftWaiting(e, init, z, m') && Brings(m', v, zs)
    ensures NextPlace(w, LastRound(e.c), e.n).1 != []
  {
    hide LeftWaiting, Ready, Forwards, Carries, Brings, Target, Held, Spawns, LockNode, Inbound;
    var last := LastRound(e.c);
    LeftWaitingFrom(e, init, z, m');
    BatchMembers(e, init, last, z, m');
    if !(Held(e, init, last, z, m') && m' in LockNode(e, init, last, z).waiting) {
      var k :| 0 <= k < |Inbound(e, init, last, z)| && m' in Spawns(Inbound(e, init, last, z)[k].message);
      var m1 := Inbound(e, init, last, z)[k].message;
      SpawnBrings(m1, m', v, zs);
      SentWasHeld(e, init, last, z, k, v, zs);
      if w.1 != [] {
        var m0 :| SoleAt(e, init, last, w.0, m0, v, zs) && Carries(m0, w.1, v);
        HandledNow(e, init, last, w.0, m0, w.1, v, zs, z);
        CarriedSpawns(m0, w.1, v);
      }
    } else if w.1 != [] {
      var m0 :| SoleAt(e, init, last, w.0, m0, v, zs) && Carries(m0, w.1, v);
      CarriedSpawns(m0, w.1, v);
    }
  }

  lemma UnfinishedIsLeft<P(!new), V(!new)>(e: Env<P, V>, init: seq<Node<P, V>>, w: (nat, seq<nat>), v: V, zs: set<nat>)
    returns (z: nat, m': Message<V>)
    requires Ready(e, init) && Forwards(e.impl) && Valid(w.0, w.1, e.n) && CopyAt(e, init, LastRound(e.c), w, v, zs)
    requires NextPlace(w, LastRound(e.c), e.n).1 != []
    ensures z < e.n && LeftWaiting(e, init, z, m') && Brings(m', v, zs)
  {
    hide LeftWaiting, Ready, Forwards, Carries, Brings, Target, Held, Spawns, LockNode, Inbound;
    var last := LastRound(e.c);
    var m0 :| SoleAt(e, init, last, w.0, m0, v, zs) && Carries(m0, w.1, v);
    CarriedSpawns(m0, w.1, v);
    if Target(w.0, last, e.n) == w.1[0] {
      z, m' := w.1[0], Spawns(m0)[0];
      HandledNow(e, init, last, w.0, m0, w.1, v, zs, z);
      CarriedBrings(m', w.1[1..], v, zs);
    } else {
      z, m' := w.0, m0;
      BatchMembers(e, init, last, z, m');
      CarriedBrings(m0, w.1, v, zs);
    }
    LeftWaitingFrom(e, init, z, m');
  }

  /**
   * From one query to the next: start_query keeps what is waiting, so a message left over that meets its destination as
   * gossip target again breaks the next query's synchrony.
   */
  lemma LeftoverDisturbsNext<P(!new), V(!new)>(e: Env<P, V>, init: seq<Node<P, V>>, z: nat, nd: Node<P, V>, proto: P,
                                               launch: seq<Message<V>>, m: Message<V>, s: nat)
    requires Ready(e, init) && z < e.n && init[z] == Restart(nd, proto, launch)
    requires m in nd.waiting && m.query != e.query && !m.flood
    requires s <= LastRound(e.c) && Target(z, s, e.n) == m.dest
    ensures !OneQuery(e, init)
  {
    hide Target, OneQuery, Ready;
    if OneQuery(e, init) { LeftoverIsSent(e, init, z, m, s); }
  }
}
