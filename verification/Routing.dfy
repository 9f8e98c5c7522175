/**
 * Messages follow the paths the planner chose: the forwarding rule "send when this round's target is the
 * next hop" (src/ProtocolState_impl.h) against find_paths, for onions and for path messages.
 */
module Routing {
  import opened Overlay
  import opened Phases
  import opened RoundEngine
  import opened AsyncRefinement
  import Coverage
  import PathFinder

  // ---- the two encodings of a path ----

  function Onion<V>(query: int, path: seq<nat>, v: V): Message<V>
    requires |path| >= 1
  {
    if |path| == 1 then Message(query, path[0], false, [], Value(v))
    else Message(query, path[0], false, [], Layer(Onion(query, path[1..], v)))
  }

  /** build_encrypted_onion: wraps layers from the end of the path to its beginning. */
  method BuildOnion<V>(query: int, path: seq<nat>, v: V) returns (layer: Message<V>)
    requires |path| >= 1
    ensures layer == Onion(query, path, v)
  {
    var i := |path| - 1;
    layer := Message(query, path[i], false, [], Value(v));
    assert path[i..] == [path[i]];
    while i > 0
      invariant 0 <= i < |path| && layer == Onion(query, path[i..], v)
    {
      i := i - 1;
      assert path[i..][1..] == path[i + 1..];
      layer := Message(query, path[i], false, [], Layer(layer));
    }
    assert path[0..] == path;
  }

  /** The PathOverlayMessage constructor. */
  function PathMessage<V>(query: int, path: seq<nat>, v: V): Message<V>
    requires |path| >= 1
  {
    Message(query, path[0], false, path[1..], Value(v))
  }

  ghost predicate Carries<V>(m: Message<V>, hops: seq<nat>, v: V)
    requires |hops| >= 1
  {
    m == Onion(m.query, hops, v) || m == PathMessage(m.query, hops, v)
  }

  /** CT and BFT queue the next layer of an onion and nothing else. */
  ghost predicate Forwards<P(!new), V(!new)>(impl: Impl<P, V>) {
    forall p: P, id: nat, ph: Phase, m: Message<V> ::
      impl.receive(p, id, ph, m).1 == if m.body.Layer? then [m.body.inner] else []
  }

  /**
   * handle_overlay_message_impl of CtProtocolState and BftProtocolState: an enclosed layer is queued, a
   * value addressed to this node goes to the handler of the current phase, a null payload is ignored.
   */
  function ForwardingReceive<P, V>(deliver: (P, Phase, V) -> P): (P, nat, Phase, Message<V>) -> (P, seq<Message<V>>) {
    (p: P, id: nat, ph: Phase, m: Message<V>) =>
      match m.body
      case Null => (p, [])
      case Layer(inner) => (p, [inner])
      case Value(v) => (if m.dest == id then deliver(p, ph, v) else p, [])
  }

  /** What handling m adds to the waiting messages: m with its path popped, and the layer it encloses. */
  function Spawns<V>(m: Message<V>): seq<Message<V>> {
    (if m.remaining == [] then [] else [m.(dest := m.remaining[0], remaining := m.remaining[1..])])
    + if m.body.Layer? then [m.body.inner] else []
  }

  lemma AbsorbSpawns<P(!new), V(!new)>(e: Env<P, V>, nd: Node<P, V>, t: Transport<V>)
    requires Forwards(e.impl)
    ensures Absorb(e, nd, t).waiting == nd.waiting + Spawns(t.message)
  {
  }

  /** A carrying message spawns nothing at its last hop, and before it one message carrying v along the rest. */
  lemma CarriedSpawns<V>(m: Message<V>, hops: seq<nat>, v: V)
    requires |hops| >= 1 && Carries(m, hops, v)
    ensures m.dest == hops[0] && !m.flood
    ensures |hops| == 1 ==> Spawns(m) == [] && m == Message(m.query, hops[0], false, [], Value(v))
    ensures |hops| > 1 ==> |Spawns(m)| == 1 && Carries(Spawns(m)[0], hops[1..], v) && Spawns(m)[0].query == m.query
  {
    if |hops| > 1 {
      if m == Onion(m.query, hops, v) {
        assert Spawns(m) == [Onion(m.query, hops[1..], v)];
      } else {
        assert Spawns(m) == [PathMessage(m.query, hops[1..], v)];
      }
    }
  }

  // ---- one round of forwarding in the lockstep execution ----

  /** Node x at the start of round r, about to send. */
  ghost function PreBatch<P, V>(e: Env<P, V>, init: seq<Node<P, V>>, r: nat, x: nat): Node<P, V>
    requires Ready(e, init) && r <= LastRound(e.c) && x < e.n
  {
    if r == 0 then EndPhase(e, init[x])
    else EndPhase(e, AbsorbAll(e, LockNode(e, init, r - 1, x), Inbound(e, init, r - 1, x)))
  }

  ghost predicate Held<P, V>(e: Env<P, V>, init: seq<Node<P, V>>, r: nat, x: nat, m: Message<V>)
    requires Ready(e, init) && r <= LastRound(e.c) && x < e.n
  {
    m in PreBatch(e, init, r, x).waiting || m in PreBatch(e, init, r, x).outgoing
  }

  lemma FirstBatchSends<P, V>(e: Env<P, V>, init: seq<Node<P, V>>, x: nat)
    requires Ready(e, init) && x < e.n
    ensures var p := PreBatch(e, init, 0, x);
            && p.id == x && p.round == -1 && !p.last && LockNode(e, init, 0, x) == NextRound(e, p)
  {
  }

  lemma RoundDoneShape<P, V>(e: Env<P, V>, nd: Node<P, V>, ts: seq<Transport<V>>, x: nat, r: nat)
    requires LockInv(e, nd, x, r) && r < LastRound(e.c)
    ensures var a := AbsorbAll(e, nd, ts);
            Wf(e, a) && a.id == x && a.round == r && !a.last && a.outgoing == nd.outgoing
  {
    hide PhaseAt, Absorb, AbsorbAll, BatchOk;
    AbsorbAllKeeps(e, nd, ts);
  }

  lemma PreBatchSends<P, V>(e: Env<P, V>, init: seq<Node<P, V>>, r: nat, x: nat)
    requires Ready(e, init) && r <= LastRound(e.c) && x < e.n
    ensures var p := PreBatch(e, init, r, x);
            && p.id == x && p.round == r - 1 && !p.last
            && LockNode(e, init, r, x) == NextRound(e, p)
  {
    hide PhaseAt, Absorb, AbsorbAll, NextRound, EndPhase, BatchOk, LockInv, LockNode, Inbound, Advance, Fresh;
    if r == 0 {
      FirstBatchSends(e, init, x);
    } else {
      var nd, ts := LockNode(e, init, r - 1, x), Inbound(e, init, r - 1, x);
      LockUnfold(e, init, r - 1, x);
      RoundDoneShape(e, nd, ts, x, r - 1);
      EndPhaseShape(e, AbsorbAll(e, nd, ts));
    }
  }

  lemma EndPhaseShape<P, V>(e: Env<P, V>, nd: Node<P, V>)
    requires Wf(e, nd) && nd.round < LastRound(e.c) && !nd.last
    ensures var a := EndPhase(e, nd);
            && a.id == nd.id && a.round == nd.round && !a.last && a.waiting == nd.waiting
            && Advance(e, nd) == NextRound(e, a)
  {
    PhaseSchedule(e.c, nd.round);
  }

  lemma {:induction false} SelectHold<V>(ms: seq<Message<V>>, target: nat, floods: bool)
    ensures multiset(Select(ms, target, floods)) + multiset(Hold(ms, target, floods)) == multiset(ms)
    ensures forall m :: m in Select(ms, target, floods) <==> m in ms && ((floods && m.flood) || m.dest == target)
    ensures forall m :: m in Hold(ms, target, floods) <==> m in ms && !((floods && m.flood) || m.dest == target)
  {
    if ms != [] {
      SelectHold(ms[1..], target, floods);
      assert ms == [ms[0]] + ms[1..];
    }
  }

  function Payloads<V>(ts: seq<Transport<V>>): seq<Message<V>> {
    seq(|ts|, k requires 0 <= k < |ts| => ts[k].message)
  }

  lemma SplitConserves<V>(waiting: seq<Message<V>>, outgoing: seq<Message<V>>, target: nat)
    ensures var ms, held := Select(waiting, target, false) + Select(outgoing, target, true),
                            Hold(waiting, target, false) + Hold(outgoing, target, true);
            multiset(ms) + multiset(held) == multiset(waiting + outgoing)
  {
    hide Select, Hold;
    SelectHold(waiting, target, false);
    SelectHold(outgoing, target, true);
  }

  lemma SplitMembers<V>(waiting: seq<Message<V>>, outgoing: seq<Message<V>>, target: nat, m: Message<V>)
    ensures var ms, held := Select(waiting, target, false) + Select(outgoing, target, true),
                            Hold(waiting, target, false) + Hold(outgoing, target, true);
            && (m in waiting + outgoing && m.dest == target ==> m in ms)
            && (m in waiting + outgoing && m.dest != target && !m.flood ==> m in held)
            && (m in ms ==> m in waiting + outgoing && (m.flood || m.dest == target))
            && (m in held ==> m in waiting + outgoing && m.dest != target)
  {
    hide Select, Hold;
    SelectHold(waiting, target, false);
    SelectHold(outgoing, target, true);
  }

  /** A round neither loses nor duplicates a held message: each one is sent, or kept for the next round. */
  lemma BatchConserves<P, V>(e: Env<P, V>, init: seq<Node<P, V>>, r: nat, x: nat)
    requires Ready(e, init) && r <= LastRound(e.c) && x < e.n
    ensures r < |LockNode(e, init, r, x).sent|
    ensures var p, nd := PreBatch(e, init, r, x), LockNode(e, init, r, x);
            var batch, dummy := Payloads(nd.sent[r]), Message(e.query, Target(x, r, e.n), false, [], Null);
            && nd.outgoing == []
            && (if batch == [dummy] then multiset(nd.waiting) <= multiset(p.waiting + p.outgoing)
                else multiset(batch) + multiset(nd.waiting) == multiset(p.waiting + p.outgoing))
  {
    hide PhaseAt, LockNode, PreBatch, LockInv, Target, Select, Hold, NextRound, Ready, Wf;
    var p, target := PreBatch(e, init, r, x), Target(x, r, e.n);
    SplitConserves(p.waiting, p.outgoing, target);
    var ms := Select(p.waiting, target, false) + Select(p.outgoing, target, true);
    SentIsBatch(e, init, r, x, ms);
    BatchPayloads(ms, x, r, target, e.query);
  }

  lemma BatchPayloads<V>(ms: seq<Message<V>>, sender: nat, round: nat, target: nat, query: int)
    ensures Payloads(Batch(ms, sender, round, target, query))
         == if ms == [] then [Message(query, target, false, [], Null)] else ms
  {
  }

  /** Of the messages held, those for this round's target and floods are sent, and the others are kept. */
  lemma BatchMembers<P, V>(e: Env<P, V>, init: seq<Node<P, V>>, r: nat, x: nat, m: Message<V>)
    requires Ready(e, init) && r <= LastRound(e.c) && x < e.n
    ensures r < |LockNode(e, init, r, x).sent|
    ensures var nd, target := LockNode(e, init, r, x), Target(x, r, e.n);
            && (Held(e, init, r, x, m) && m.dest == target ==> m in Payloads(nd.sent[r]))
            && (Held(e, init, r, x, m) && m.dest != target && !m.flood ==> m in nd.waiting)
            && (m in Payloads(nd.sent[r]) && m != Message(e.query, target, false, [], Null) ==>
                  Held(e, init, r, x, m) && (m.flood || m.dest == target))
            && (m in nd.waiting ==> Held(e, init, r, x, m) && m.dest != target)
  {
    hide PhaseAt, LockNode, PreBatch, LockInv, Target, Select, Hold, NextRound, Ready, Wf;
    var p, target := PreBatch(e, init, r, x), Target(x, r, e.n);
    SplitMembers(p.waiting, p.outgoing, target, m);
    var ms := Select(p.waiting, target, false) + Select(p.outgoing, target, true);
    SentIsBatch(e, init, r, x, ms);
    BatchPayloads(ms, x, r, target, e.query);
  }

  lemma SentIsBatch<P, V>(e: Env<P, V>, init: seq<Node<P, V>>, r: nat, x: nat, ms: seq<Message<V>>)
    requires Ready(e, init) && r <= LastRound(e.c) && x < e.n
    requires var p, target := PreBatch(e, init, r, x), Target(x, r, e.n);
             ms == Select(p.waiting, target, false) + Select(p.outgoing, target, true)
    ensures r < |LockNode(e, init, r, x).sent|
    ensures LockNode(e, init, r, x).sent[r] == Batch(ms, x, r, Target(x, r, e.n), e.query)
    ensures var p, target := PreBatch(e, init, r, x), Target(x, r, e.n);
            && LockNode(e, init, r, x).waiting == Hold(p.waiting, target, false) + Hold(p.outgoing, target, true)
            && LockNode(e, init, r, x).outgoing == []
  {
    hide PhaseAt, LockNode, PreBatch, Select, Hold, Batch, Target;
    PreBatchSends(e, init, r, x);
    assert LockInv(e, LockNode(e, init, r, x), x, r);
  }

  lemma {:induction false} WaitingGrows<P, V>(e: Env<P, V>, nd: Node<P, V>, ts: seq<Transport<V>>)
    ensures nd.waiting <= AbsorbAll(e, nd, ts).waiting
    decreases |ts|
  {
    if ts != [] { WaitingGrows(e, Absorb(e, nd, ts[0]), ts[1..]); }
  }

  lemma {:induction false} AbsorbAllForwards<P(!new), V(!new)>(
    e: Env<P, V>, nd: Node<P, V>, ts: seq<Transport<V>>, k: nat, hops: seq<nat>, v: V)
    requires Forwards(e.impl) && k < |ts| && |hops| > 1 && Carries(ts[k].message, hops, v)
    ensures exists m :: Carries(m, hops[1..], v) && m in AbsorbAll(e, nd, ts).waiting
    decreases |ts|
  {
    hide Carries, Forwards, Absorb;
    if k == 0 {
      AbsorbSpawns(e, nd, ts[0]);
      CarriedSpawns(ts[0].message, hops, v);
      WaitingGrows(e, Absorb(e, nd, ts[0]), ts[1..]);
      var m := Spawns(ts[0].message)[0];
      assert Absorb(e, nd, ts[0]).waiting[|nd.waiting|] == m;
      assert AbsorbAll(e, nd, ts).waiting[|nd.waiting|] == m;
    } else {
      AbsorbAllForwards(e, Absorb(e, nd, ts[0]), ts[1..], k - 1, hops, v);
    }
  }

  /** What is waiting when a round's messages have been handled is held at the start of the next round. */
  lemma WaitingIsHeld<P, V>(e: Env<P, V>, init: seq<Node<P, V>>, r: nat, x: nat, m: Message<V>)
    requires Ready(e, init) && r < LastRound(e.c) && x < e.n
    requires m in AbsorbAll(e, LockNode(e, init, r, x), Inbound(e, init, r, x)).waiting
    ensures Held(e, init, r + 1, x, m)
  {
    hide PhaseAt, Absorb, AbsorbAll, EndPhase, LockNode, Inbound, LockInv;
    var nd, ts := LockNode(e, init, r, x), Inbound(e, init, r, x);
    RoundDoneShape(e, nd, ts, x, r);
    EndPhaseShape(e, AbsorbAll(e, nd, ts));
  }

  lemma KeptMessage<P, V>(e: Env<P, V>, init: seq<Node<P, V>>, r: nat, x: nat, m: Message<V>)
    requires Ready(e, init) && r < LastRound(e.c) && x < e.n && Held(e, init, r, x, m)
    requires m.dest != Target(x, r, e.n) && !m.flood
    ensures Held(e, init, r + 1, x, m)
  {
    hide PhaseAt, Absorb, AbsorbAll, EndPhase, LockNode, Inbound, LockInv, Target, PreBatch;
    BatchMembers(e, init, r, x, m);
    WaitingGrows(e, LockNode(e, init, r, x), Inbound(e, init, r, x));
    WaitingIsHeld(e, init, r, x, m);
  }

  /** In round r node y handles, straight from x, a message still carrying v along hops. */
  ghost predicate HandledBy<P, V>(e: Env<P, V>, init: seq<Node<P, V>>, r: nat, x: nat, y: nat, hops: seq<nat>, v: V)
    requires Ready(e, init) && r <= LastRound(e.c) && y < e.n && |hops| >= 1
  {
    exists k :: 0 <= k < |Inbound(e, init, r, y)|
      && Inbound(e, init, r, y)[k].sender == x && Carries(Inbound(e, init, r, y)[k].message, hops, v)
  }

  lemma SentMessage<P(!new), V(!new)>(e: Env<P, V>, init: seq<Node<P, V>>, r: nat, x: nat, m: Message<V>,
                                      hops: seq<nat>, v: V)
    requires Ready(e, init) && Forwards(e.impl) && r <= LastRound(e.c) && x < e.n && Held(e, init, r, x, m)
    requires |hops| >= 1 && Carries(m, hops, v) && hops[0] == Target(x, r, e.n)
    ensures HandledBy(e, init, r, x, hops[0], hops, v)
    ensures |hops| > 1 && r < LastRound(e.c) ==>
              exists m' :: Carries(m', hops[1..], v) && Held(e, init, r + 1, hops[0], m')
  {
    hide PhaseAt, Absorb, AbsorbAll, EndPhase, LockNode, LockInv, Target, PreBatch;
    var y := hops[0];
    BatchMembers(e, init, r, x, m);
    GossipInverse(x, y, r, e.n);
    var ts := Inbound(e, init, r, y);
    assert ts == LockNode(e, init, r, x).sent[r];
    assert m.dest == y;
    assert m in Payloads(ts);
    var k :| 0 <= k < |ts| && ts[k].message == m;
    assert ts[k].sender == x;
    if |hops| > 1 && r < LastRound(e.c) {
      AbsorbAllForwards(e, LockNode(e, init, r, y), ts, k, hops, v);
      var m' :| Carries(m', hops[1..], v) && m' in AbsorbAll(e, LockNode(e, init, r, y), ts).waiting;
      WaitingIsHeld(e, init, r, y, m');
    }
  }

  // ---- whole trips ----

  /** s is the first round from t on in which x's gossip target is y. */
  ghost predicate FirstChance(x: nat, y: nat, t: nat, s: nat, n: nat)
    requires x < n
  {
    t <= s && Target(x, s, n) == y && forall u: nat :: t <= u < s ==> Target(x, u, n) != y
  }

  lemma {:induction false} FindChance(x: nat, y: nat, t: nat, s: nat, n: nat) returns (first: nat)
    requires x < n && t <= s && Target(x, s, n) == y
    ensures first <= s && FirstChance(x, y, t, first, n)
    decreases s - t
  {
    hide Target;
    if Target(x, t, n) == y { first := t; } else { first := FindChance(x, y, t + 1, s, n); }
  }

  /** The rounds in which a message starting at x in round t and forwarded greedily reaches its hops. */
  ghost predicate Greedy(x: nat, hops: seq<nat>, t: nat, arrivals: seq<nat>, n: nat)
    requires x < n && forall k :: 0 <= k < |hops| ==> hops[k] < n
    decreases |hops|
  {
    && |arrivals| == |hops|
    && (|hops| > 0 ==>
          FirstChance(x, hops[0], t, arrivals[0], n) && Greedy(hops[0], hops[1..], arrivals[0] + 1, arrivals[1..], n))
  }

  /** The schedule depends on the hops and the starting round alone, whatever the encoding. */
  lemma {:induction false} GreedyUnique(x: nat, hops: seq<nat>, t: nat, a: seq<nat>, b: seq<nat>, n: nat)
    requires x < n && forall k :: 0 <= k < |hops| ==> hops[k] < n
    requires Greedy(x, hops, t, a, n) && Greedy(x, hops, t, b, n)
    ensures a == b
    decreases |hops|
  {
    if |hops| > 0 {
      GreedyUnique(hops[0], hops[1..], a[0] + 1, a[1..], b[1..], n);
      assert a == [a[0]] + a[1..] && b == [b[0]] + b[1..];
    }
  }

  /** The k-th hop handles the message in the k-th arrival round, straight from the hop before it. */
  ghost predicate HopOk<P, V>(e: Env<P, V>, init: seq<Node<P, V>>, x: nat, hops: seq<nat>, v: V, arrivals: seq<nat>, k: nat)
    requires Ready(e, init) && k < |arrivals| == |hops|
  {
    && arrivals[k] <= LastRound(e.c) && hops[k] < e.n
    && HandledBy(e, init, arrivals[k], if k == 0 then x else hops[k - 1], hops[k], hops[k..], v)
  }

  ghost predicate Trip<P, V>(e: Env<P, V>, init: seq<Node<P, V>>, x: nat, hops: seq<nat>, v: V, arrivals: seq<nat>)
    requires Ready(e, init) && |arrivals| == |hops|
  {
    forall k: nat {:trigger HopOk(e, init, x, hops, v, arrivals, k)} ::
      k < |hops| ==> HopOk(e, init, x, hops, v, arrivals, k)
  }

  lemma ExtendTrip<P, V>(e: Env<P, V>, init: seq<Node<P, V>>, x: nat, hops: seq<nat>, v: V, s: nat, rest: seq<nat>)
    requires Ready(e, init) && |hops| >= 1 && |rest| == |hops| - 1 && x < e.n && hops[0] < e.n
    requires s <= LastRound(e.c) && HandledBy(e, init, s, x, hops[0], hops, v)
    requires |hops| > 1 ==> Trip(e, init, hops[0], hops[1..], v, rest)
    ensures Trip(e, init, x, hops, v, [s] + rest)
  {
    hide HandledBy, Ready;
    forall k: nat | k < |hops| ensures HopOk(e, init, x, hops, v, [s] + rest, k) {
      if k == 0 {
        assert hops[0..] == hops;
      } else {
        assert HopOk(e, init, hops[0], hops[1..], v, rest, k - 1);
        assert hops[1..][k - 1..] == hops[k..];
      }
    }
  }

  lemma {:induction false} HeldUntil<P, V>(e: Env<P, V>, init: seq<Node<P, V>>, t: nat, s: nat, x: nat, m: Message<V>)
    requires Ready(e, init) && t <= s <= LastRound(e.c) && x < e.n && Held(e, init, t, x, m) && !m.flood
    requires forall u: nat :: t <= u < s ==> Target(x, u, e.n) != m.dest
    ensures Held(e, init, s, x, m)
    decreases s - t
  {
    hide Held, Target;
    if t < s {
      KeptMessage(e, init, t, x, m);
      HeldUntil(e, init, t + 1, s, x, m);
    }
  }

  /**
   * A held message carrying v along planned hops is handled by each of these nodes in this order, no later than the
   * plan says; Forwarding.HandledAlongWalk says that nobody else handles it.
   */
  lemma {:induction false} RoutingRealisesPlan<P(!new), V(!new)>(
    e: Env<P, V>, init: seq<Node<P, V>>, t: nat, x: nat, m: Message<V>, hops: seq<nat>, v: V, rounds: seq<nat>)
    returns (arrivals: seq<nat>)
    requires Ready(e, init) && Forwards(e.impl) && x < e.n && |hops| >= 1
    requires PathFinder.Travels([x] + hops, rounds, e.n) && t <= rounds[0] && rounds[|hops| - 1] <= LastRound(e.c)
    requires Held(e, init, t, x, m) && Carries(m, hops, v)
    ensures forall k :: 0 <= k < |hops| ==> hops[k] == ([x] + hops)[k + 1] < e.n
    ensures Greedy(x, hops, t, arrivals, e.n)
    ensures |arrivals| == |hops| && forall k :: 0 <= k < |hops| ==> arrivals[k] <= rounds[k]
    ensures Trip(e, init, x, hops, v, arrivals)
    decreases |hops|
  {
    hide Held, Target, Carries, Forwards, HandledBy, Ready, Trip;
    assert forall k :: 0 <= k < |hops| ==> hops[k] == ([x] + hops)[k + 1];
    var y := hops[0];
    assert Target(x, rounds[0], e.n) == y;
    var s := FindChance(x, y, t, rounds[0], e.n);
    assert rounds[0] <= rounds[|hops| - 1];
    CarriedSpawns(m, hops, v);
    HeldUntil(e, init, t, s, x, m);
    SentMessage(e, init, s, x, m, hops, v);
    var rest := [];
    if |hops| > 1 {
      assert s < rounds[1] <= rounds[|hops| - 1];
      var m' :| Carries(m', hops[1..], v) && Held(e, init, s + 1, y, m');
      RestTravels(x, hops, rounds, e.n);
      rest := RoutingRealisesPlan(e, init, s + 1, y, m', hops[1..], v, rounds[1..]);
      assert forall k :: 0 <= k < |rest| ==> rest[k] <= rounds[1..][k] == rounds[k + 1];
    }
    arrivals := [s] + rest;
    assert arrivals[1..] == rest;
    ExtendTrip(e, init, x, hops, v, s, rest);
  }

  lemma RestTravels(x: nat, hops: seq<nat>, rounds: seq<nat>, n: nat)
    requires x < n && |hops| > 1 && PathFinder.Travels([x] + hops, rounds, n)
    ensures PathFinder.Travels([hops[0]] + hops[1..], rounds[1..], n)
  {
    hide Target;
    assert [hops[0]] + hops[1..] == hops == ([x] + hops)[1..];
    forall k | 0 <= k < |rounds| - 1 ensures Target(hops[k], rounds[1..][k], n) == hops[k + 1] {
      assert Target(([x] + hops)[k + 1], rounds[k + 1], n) == ([x] + hops)[k + 2];
    }
  }

  /** The hops can be travelled from `start` on, the last one in round `last` at the latest. */
  ghost predicate EndsBy(source: nat, hops: seq<nat>, n: nat, start: nat, last: nat) {
    exists rounds ::
      && |rounds| == |hops| >= 1 && PathFinder.Travels([source] + hops, rounds, n)
      && start <= rounds[0] && rounds[|hops| - 1] <= last
  }

  /** Every path of find_paths ends within the planner's round limit. */
  lemma PlannedEndsBy(source: nat, targets: seq<nat>, n: nat, start: nat, paths: seq<seq<nat>>, i: nat)
    requires n >= 1 && i < |targets| == |paths| && |paths[i]| >= 1
    requires PathFinder.Planned(source, targets, n, start, paths, i)
    ensures start + PathFinder.RoundsLimit(n, |targets|) >= 1
    ensures EndsBy(source, paths[i], n, start, start + PathFinder.RoundsLimit(n, |targets|) - 1)
    ensures paths[i][|paths[i]| - 1] == targets[i]
  {
    hide Target, PathFinder.Travels;
    var q := PathFinder.NthSearch(source, targets, n, start, paths, i);
    var hops := paths[i];
    var rounds :| PathFinder.Admissible([source] + hops, rounds, q);
    assert |rounds| == |hops| by { TravelsLength([source] + hops, rounds, n); }
    assert hops[|hops| - 1] == ([source] + hops)[|rounds|];
  }

  /** A path that ends within the overlay is realised to its last hop, in or before the round it ends by. */
  lemma PathIsRealised<P(!new), V(!new)>(
    e: Env<P, V>, init: seq<Node<P, V>>, source: nat, path: seq<nat>, start: nat, last: nat, m: Message<V>, v: V)
    returns (r: nat, from: nat)
    requires Ready(e, init) && Forwards(e.impl) && source < e.n && |path| >= 1
    requires start <= LastRound(e.c) && last <= LastRound(e.c) && EndsBy(source, path, e.n, start, last)
    requires Held(e, init, start, source, m) && Carries(m, path, v)
    ensures start <= r <= last
    ensures path[|path| - 1] < e.n && HandledBy(e, init, r, from, path[|path| - 1], [path[|path| - 1]], v)
  {
    hide Held, Target, Carries, Forwards, HandledBy, Ready, PathFinder.Travels;
    var rounds :| |rounds| == |path| && PathFinder.Travels([source] + path, rounds, e.n)
                  && start <= rounds[0] && rounds[|path| - 1] <= last;
    var arrivals := RoutingRealisesPlan(e, init, start, source, m, path, v, rounds);
    var k := |path| - 1;
    assert path[k..] == [path[k]];
    r, from := arrivals[k], if k == 0 then source else path[k - 1];
    assert arrivals[k] <= rounds[k];
    assert HopOk(e, init, source, path, v, arrivals, k);
    GreedyAfter(source, path, start, arrivals, e.n, k);
  }

  lemma {:induction false} GreedyAfter(x: nat, hops: seq<nat>, t: nat, arrivals: seq<nat>, n: nat, k: nat)
    requires x < n && (forall k :: 0 <= k < |hops| ==> hops[k] < n) && Greedy(x, hops, t, arrivals, n) && k < |arrivals|
    ensures arrivals[k] >= t
    decreases |hops|
  {
    if k > 0 { GreedyAfter(hops[0], hops[1..], arrivals[0] + 1, arrivals[1..], n, k - 1); }
  }

  /** Every path of find_paths that ends within the overlay reaches its target. */
  lemma FoundPathIsRealised<P(!new), V(!new)>(
    e: Env<P, V>, init: seq<Node<P, V>>, source: nat, targets: seq<nat>, start: nat, paths: seq<seq<nat>>, i: nat,
    last: nat, m: Message<V>, v: V)
    returns (r: nat, from: nat)
    requires Ready(e, init) && Forwards(e.impl) && source < e.n && i < |targets| == |paths| && |paths[i]| >= 1
    requires PathFinder.Planned(source, targets, e.n, start, paths, i)
    requires start <= LastRound(e.c) && last <= LastRound(e.c) && EndsBy(source, paths[i], e.n, start, last)
    requires Held(e, init, start, source, m) && Carries(m, paths[i], v)
    ensures start <= r <= last && targets[i] < e.n && HandledBy(e, init, r, from, targets[i], [targets[i]], v)
  {
    hide Held, Carries, Forwards, HandledBy, Ready, EndsBy, PathFinder.Planned;
    PlannedEndsBy(source, targets, e.n, start, paths, i);
    r, from := PathIsRealised(e, init, source, paths[i], start, last, m, v);
  }

  lemma TravelsLength(path: seq<nat>, rounds: seq<nat>, n: nat)
    requires PathFinder.Travels(path, rounds, n)
    ensures |path| == |rounds| + 1
  {
  }

  /** When 2 is a primitive root modulo N, nothing held for another node waits longer than N-1 rounds. */
  lemma HeldMessageIsSent<P(!new), V(!new)>(e: Env<P, V>, init: seq<Node<P, V>>, t: nat, x: nat, m: Message<V>)
    requires Ready(e, init) && e.n >= 3 && e.n % 2 == 1 && Coverage.TwoIsPrimitiveRoot(e.n)
    requires x < e.n && t + e.n - 2 <= LastRound(e.c) && Held(e, init, t, x, m) && !m.flood
    requires m.dest < e.n && m.dest != x
    ensures exists s: nat :: t <= s < t + e.n - 1 && s <= LastRound(e.c) && s < |LockNode(e, init, s, x).sent|
              && m in Payloads(LockNode(e, init, s, x).sent[s])
  {
    hide Target, LockNode, Coverage.TwoIsPrimitiveRoot, PreBatch, LockInv;
    Coverage.FullCoverage(x, t, e.n);
    assert Coverage.ReachedOnce(x, m.dest, t, e.n);
    var s: nat :| t <= s < t + e.n - 1 && Target(x, s, e.n) == m.dest;
    forall u: nat | t <= u < s ensures Target(x, u, e.n) != m.dest {
    }
    HeldUntil(e, init, t, s, x, m);
    BatchMembers(e, init, s, x, m);
  }
}
