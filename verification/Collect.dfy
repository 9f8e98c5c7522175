/**
 * What the crash-tolerant protocol collects when nobody fails: every contribution at its proxies and nowhere else, up
 * to the sum that reaches the utility (src/CtProtocolState.cpp, src/ProtocolState_impl.h).
 */
module Collect {
  import opened Arith
  import opened Overlay
  import opened Phases
  import opened RoundEngine
  import opened AsyncRefinement
  import opened Routing
  import opened Forwarding
  import opened Delivery
  import opened Crusader
  import opened Shuffle
  import PathFinder
  import Groups
  import TreeAggregation
  import TreeRun
  import Conservation

  // ---- where values may go ----

  /** A value of this query inside m goes, without a hop repeated in a row, to a proxy its owner named. */
  ghost predicate Rightful(m: Message<Contribution>, query: int, cs: seq<Contribution>) {
    !m.flood &&
    match m.body
    case Null => true
    case Layer(inner) => Rightful(inner, query, cs)
    case Value(v) =>
      v.tuple.query == query ==>
        var path := [m.dest] + m.remaining;
        StepsAway(path) && Conservation.NamedBy(cs, path[|path| - 1], v)
  }

  ghost predicate AllRightful(ms: seq<Message<Contribution>>, query: int, cs: seq<Contribution>) {
    forall m :: m in ms ==> Rightful(m, query, cs)
  }

  lemma SpawnsRightful(m: Message<Contribution>, query: int, cs: seq<Contribution>)
    requires Rightful(m, query, cs)
    ensures AllRightful(Spawns(m), query, cs)
  {
    if m.remaining != [] {
      var next := m.(dest := m.remaining[0], remaining := m.remaining[1..]);
      assert [next.dest] + next.remaining == ([m.dest] + m.remaining)[1..];
    }
  }

  /** Only its last hop is handed the value. */
  lemma DeliveredRightly(m: Message<Contribution>, query: int, cs: seq<Contribution>, z: nat, v: Contribution)
    requires Rightful(m, query, cs) && m.dest == z && DeliversTo(m, z, v) && v.tuple.query == query
    ensures Conservation.NamedBy(cs, z, v)
  {
    var path := [m.dest] + m.remaining;
    if StepsAway(path) && |path| > 1 { FirstStep(path); }
  }

  lemma FirstStep(path: seq<nat>)
    requires StepsAway(path) && |path| > 1
    ensures path[0] != path[1]
  {
  }

  lemma {:induction false} OnionRightful(query: int, path: seq<nat>, v: Contribution, cs: seq<Contribution>)
    requires |path| >= 1 && Conservation.NamedBy(cs, path[|path| - 1], v)
    ensures Rightful(Onion(query, path, v), query, cs)
    decreases |path|
  {
    if |path| > 1 { OnionRightful(query, path[1..], v, cs); }
  }

  // ---- the start ----

  /** Each meter's own onions, along find_paths' paths, and whatever an earlier query has left waiting. */
  ghost predicate Launched(e: CtEnv, init: CtNodes, cs: seq<Contribution>, paths: seq<seq<seq<nat>>>)
    requires |init| == e.n
  {
    && |cs| == |paths| == e.n
    && forall j :: 0 <= j < e.n ==> LaunchedBy(e, init[j], j, cs[j], paths[j])
  }

  ghost predicate LaunchedBy(e: CtEnv, nd: Node<set<Contribution>, Contribution>, j: nat, c: Contribution,
                             paths: seq<seq<nat>>)
    requires j < e.n
  {
    && c.tuple.query == e.query && nd.proto == {} && j !in c.tuple.proxies
    && |paths| == |c.tuple.proxies| && PathFinder.PlannedUpTo(j, c.tuple.proxies, e.n, 0, paths, |paths|)
    && (forall k :: 0 <= k < |paths| ==> |paths[k]| >= 1)
    && (forall m :: m in nd.outgoing <==> exists k :: 0 <= k < |paths| && m == Onion(e.query, paths[k], c))
    && (forall m :: m in nd.waiting ==> Rightful(m, e.query, []))
  }

  /** At the end of shuffle values are echoed to the other proxies along simple paths; see Multicasts.MulticastsOnly. */
  ghost predicate Echoes(e: CtEnv) {
    forall p: set<Contribution>, id, a, b, r, m :: m in e.impl.roundEnd(p, id, a, b, r).1 ==> EchoOf(e.query, p, m)
  }

  ghost predicate EchoOf(query: int, p: set<Contribution>, m: Message<Contribution>) {
    exists v, path: seq<nat> ::
      v in p && |path| >= 1 && m == PathMessage(query, path, v) && StepsAway(path)
      && path[|path| - 1] in v.tuple.proxies
  }

  lemma OwnOnion(e: CtEnv, init: CtNodes, cs: seq<Contribution>, paths: seq<seq<seq<nat>>>, j: nat, k: nat)
    requires |init| == e.n && Launched(e, init, cs, paths) && j < e.n && k < |paths[j]|
    ensures |paths[j][k]| >= 1 && k < |cs[j].tuple.proxies| && cs[j].tuple.query == e.query
    ensures Onion(e.query, paths[j][k], cs[j]) in init[j].outgoing
    ensures paths[j][k][|paths[j][k]| - 1] == cs[j].tuple.proxies[k] < e.n
  {
    hide PathFinder.PlannedUpTo;
    assert LaunchedBy(e, init[j], j, cs[j], paths[j]);
    PlannedIsWalk(j, cs[j].tuple.proxies, e.n, paths[j], k);
  }

  lemma InitRightful(e: CtEnv, init: CtNodes, cs: seq<Contribution>, paths: seq<seq<seq<nat>>>, x: nat,
                     m: Message<Contribution>)
    requires |init| == e.n && Launched(e, init, cs, paths) && x < e.n && m in init[x].waiting + init[x].outgoing
    ensures Rightful(m, e.query, cs)
  {
    hide PathFinder.PlannedUpTo;
    assert LaunchedBy(e, init[x], x, cs[x], paths[x]);
    if m in init[x].waiting {
      NobodysIsRightful(m, e.query, cs);
    } else {
      var k :| 0 <= k < |paths[x]| && m == Onion(e.query, paths[x][k], cs[x]);
      OwnOnion(e, init, cs, paths, x, k);
      OnionRightful(e.query, paths[x][k], cs[x], cs);
    }
  }

  lemma {:induction false} NobodysIsRightful(m: Message<Contribution>, query: int, cs: seq<Contribution>)
    requires Rightful(m, query, [])
    ensures Rightful(m, query, cs)
    decreases m
  {
    if m.body.Layer? { NobodysIsRightful(m.body.inner, query, cs); }
  }

  // ---- every round ----

  /** What x holds before its round-r batch is rightful, and so is what it has recorded. */
  ghost predicate RightfulAt(e: CtEnv, init: CtNodes, r: nat, x: nat, cs: seq<Contribution>)
    requires Ready(e, init) && r <= LastRound(e.c) && x < e.n
  {
    forall m {:trigger Held(e, init, r, x, m)} :: Held(e, init, r, x, m) ==> Rightful(m, e.query, cs)
  }

  ghost predicate RightfulUpTo(e: CtEnv, init: CtNodes, r: nat, cs: seq<Contribution>)
    requires Ready(e, init) && r <= LastRound(e.c)
  {
    forall s: nat, x: nat {:trigger RightfulAt(e, init, s, x, cs)} ::
      s <= r && x < e.n ==> RightfulAt(e, init, s, x, cs)
  }

  lemma InboundRightful(e: CtEnv, init: CtNodes, r: nat, z: nat, k: nat, cs: seq<Contribution>)
    requires Ready(e, init) && r <= LastRound(e.c) && z < e.n && k < |Inbound(e, init, r, z)|
    requires RightfulAt(e, init, r, Predecessor(z, r, e.n), cs)
    ensures var m := Inbound(e, init, r, z)[k].message; Rightful(m, e.query, cs) && m.dest == z
  {
    hide Held, LockNode, LockInv, Target, Predecessor, Ready, Inbound, Rightful;
    var y := Predecessor(z, r, e.n);
    var m := Inbound(e, init, r, z)[k].message;
    GossipInverse(y, z, r, e.n);
    Forwarding.InboundIsSent(e, init, r, z);
    assert Payloads(LockNode(e, init, r, y).sent[r])[k] == m;
    BatchMembers(e, init, r, y, m);
    DummyRightful(e.query, z, cs);
    assert !m.flood by { NoFloods(m, e.query, cs); }
  }

  lemma NoFloods(m: Message<Contribution>, query: int, cs: seq<Contribution>)
    requires Rightful(m, query, cs)
    ensures !m.flood
  {
  }

  lemma DummyRightful(query: int, z: nat, cs: seq<Contribution>)
    ensures Rightful(Message(query, z, false, [], Null), query, cs)
  {
  }

  lemma NextRightful(e: CtEnv, init: CtNodes, r: nat, x: nat, cs: seq<Contribution>, m: Message<Contribution>)
    requires Ready(e, init) && Forwards(e.impl) && r < LastRound(e.c) && x < e.n && Held(e, init, r + 1, x, m)
    requires RightfulAt(e, init, r, x, cs) && RightfulAt(e, init, r, Predecessor(x, r, e.n), cs)
    requires forall m' :: m' in Emitted(e, init, r, x) ==> Rightful(m', e.query, cs)
    ensures Rightful(m, e.query, cs)
  {
    hide PhaseAt, LockNode, LockInv, Target, Predecessor, Ready, Inbound, Absorb, AbsorbAll, EndPhase, Spawns, Forwards;
    hide Rightful, Emitted, Held;
    var nd, ts := LockNode(e, init, r, x), Inbound(e, init, r, x);
    HeldLater(e, init, r, x, m);
    if m !in Emitted(e, init, r, x) {
      WaitingMembers(e, nd, ts, m);
      BatchMembers(e, init, r, x, m);
      if m !in nd.waiting {
        var k :| 0 <= k < |ts| && m in Spawns(ts[k].message);
        InboundRightful(e, init, r, x, k, cs);
        SpawnsRightful(ts[k].message, e.query, cs);
      }
    }
  }

  lemma HeldLater(e: CtEnv, init: CtNodes, r: nat, x: nat, m: Message<Contribution>)
    requires Ready(e, init) && r < LastRound(e.c) && x < e.n && Held(e, init, r + 1, x, m)
    ensures m in Emitted(e, init, r, x) || m in AbsorbAll(e, LockNode(e, init, r, x), Inbound(e, init, r, x)).waiting
  {
    hide PreBatch, LockNode, Inbound, AbsorbAll, Emitted, Ready;
    PreBatchWaiting(e, init, r, x);
    EmittedIsOutgoing(e, init, r, x);
  }

  /** A recorded value of this query was sent to its holder. */
  lemma HeldRightly(e: CtEnv, init: CtNodes, cs: seq<Contribution>, paths: seq<seq<seq<nat>>>, r: nat, x: nat,
                    v: Contribution)
    requires Ready(e, init) && CtSystem(e) && Launched(e, init, cs, paths) && r <= LastRound(e.c) && x < e.n
    requires RightfulUpTo(e, init, r, cs)
    requires v in StateAt(e, init, r, x)
    ensures v.tuple.query == e.query && Conservation.NamedBy(cs, x, v)
  {
    hide StateAt, RightfulAt, CtSystem, Inbound, Rightful, LaunchedBy, DeliversTo, Conservation.NamedBy, Fresh;
    NothingAtStart(e, init, cs, paths, x);
    CtHoldsExactly(e, init, r, x, v);
    var s: nat :| s <= r && DeliveredAt(e, init, s, x, v);
    var k :| 0 <= k < |Inbound(e, init, s, x)| && DeliversTo(Inbound(e, init, s, x)[k].message, x, v);
    assert RightfulAt(e, init, s, Predecessor(x, s, e.n), cs);
    InboundRightful(e, init, s, x, k, cs);
    DeliveredRightly(Inbound(e, init, s, x)[k].message, e.query, cs, x, v);
  }

  lemma NothingAtStart(e: CtEnv, init: CtNodes, cs: seq<Contribution>, paths: seq<seq<seq<nat>>>, x: nat)
    requires |init| == e.n && Launched(e, init, cs, paths) && x < e.n
    ensures init[x].proto == {}
  {
    assert LaunchedBy(e, init[x], x, cs[x], paths[x]);
  }

  lemma EmittedRightful(e: CtEnv, init: CtNodes, cs: seq<Contribution>, paths: seq<seq<seq<nat>>>, r: nat, x: nat,
                        m: Message<Contribution>)
    requires Ready(e, init) && CtSystem(e) && Echoes(e) && Launched(e, init, cs, paths) && r <= LastRound(e.c) && x < e.n
    requires RightfulUpTo(e, init, r, cs)
    requires m in Emitted(e, init, r, x)
    ensures Rightful(m, e.query, cs)
  {
    hide StateAt, RightfulAt, Ready, CtSystem, Launched, PhaseAt;
    assert EchoOf(e.query, StateAt(e, init, r, x), m);
    var v, path: seq<nat> :| v in StateAt(e, init, r, x) && |path| >= 1 && m == PathMessage(e.query, path, v)
                             && StepsAway(path) && path[|path| - 1] in v.tuple.proxies;
    HeldRightly(e, init, cs, paths, r, x, v);
    assert [m.dest] + m.remaining == path;
    var j :| 0 <= j < |cs| && v == cs[j] && x in cs[j].tuple.proxies;
  }

  lemma {:induction false} AlwaysRightful(e: CtEnv, init: CtNodes, cs: seq<Contribution>, paths: seq<seq<seq<nat>>>, r: nat)
    requires Ready(e, init) && CtSystem(e) && Echoes(e) && Launched(e, init, cs, paths) && r <= LastRound(e.c)
    ensures RightfulUpTo(e, init, r, cs)
    decreases r
  {
    hide RightfulAt, Ready, CtSystem, Echoes, Launched;
    if r > 0 { AlwaysRightful(e, init, cs, paths, r - 1); }
    forall x: nat | x < e.n ensures RightfulAt(e, init, r, x, cs) {
      if r == 0 { FirstRightful(e, init, cs, paths, x); } else { LaterRightful(e, init, cs, paths, r - 1, x); }
    }
  }

  lemma FirstRightful(e: CtEnv, init: CtNodes, cs: seq<Contribution>, paths: seq<seq<seq<nat>>>, x: nat)
    requires Ready(e, init) && CtSystem(e) && Launched(e, init, cs, paths) && x < e.n
    ensures RightfulAt(e, init, 0, x, cs)
  {
    hide Held, Launched, Rightful, Fresh;
    forall m {:trigger Held(e, init, 0, x, m)} | Held(e, init, 0, x, m) ensures Rightful(m, e.query, cs) {
      HeldAtLaunch(e, init, x, m);
      InitRightful(e, init, cs, paths, x, m);
    }
  }

  lemma LaterRightful(e: CtEnv, init: CtNodes, cs: seq<Contribution>, paths: seq<seq<seq<nat>>>, r: nat, x: nat)
    requires Ready(e, init) && CtSystem(e) && Echoes(e) && Launched(e, init, cs, paths) && r < LastRound(e.c) && x < e.n
    requires RightfulUpTo(e, init, r, cs)
    ensures RightfulAt(e, init, r + 1, x, cs)
  {
    var next := r + 1;
    assert RightfulAt(e, init, r, x, cs) && RightfulAt(e, init, r, Predecessor(x, r, e.n), cs);
    CtForwards(e);
    forall m | m in Emitted(e, init, r, x) ensures Rightful(m, e.query, cs) {
      EmittedRightful(e, init, cs, paths, r, x, m);
    }
    hide Held, Ready, Launched, Rightful, Echoes, Emitted, CtSystem, Predecessor;
    forall m {:trigger Held(e, init, next, x, m)} | Held(e, init, next, x, m) ensures Rightful(m, e.query, cs) {
      NextRightful(e, init, r, x, cs, m);
    }
  }

  lemma CtForwards(e: CtEnv)
    requires CtSystem(e)
    ensures Forwards(e.impl)
  {
  }

  // ---- who holds what at the end ----

  /** Every planned path can be travelled by the end of the overlay. */
  ghost predicate AllInTime(e: CtEnv, paths: seq<seq<seq<nat>>>) {
    forall j: nat, k: nat {:trigger paths[j][k]} ::
      j < |paths| && k < |paths[j]| ==> EndsBy(j, paths[j][k], e.n, 0, LastRound(e.c))
  }

  /** When the overlay ends, a meter holds exactly the contributions that name it as a proxy. */
  lemma CollectExactly(e: CtEnv, init: CtNodes, cs: seq<Contribution>, paths: seq<seq<seq<nat>>>, x: nat, v: Contribution)
    requires Ready(e, init) && CtSystem(e) && Echoes(e) && Launched(e, init, cs, paths) && x < e.n
    requires AllInTime(e, paths)
    ensures v in StateAt(e, init, LastRound(e.c), x) <==> Conservation.NamedBy(cs, x, v)
  {
    hide StateAt, RightfulAt, CtSystem, EndsBy, Launched, Echoes, Fresh;
    AlwaysRightful(e, init, cs, paths, LastRound(e.c));
    if v in StateAt(e, init, LastRound(e.c), x) {
      HeldRightly(e, init, cs, paths, LastRound(e.c), x, v);
    }
    if j: nat :| j < |cs| && v == cs[j] && x in cs[j].tuple.proxies {
      var k: nat :| k < |cs[j].tuple.proxies| && cs[j].tuple.proxies[k] == x;
      LaunchedSizes(e, init, cs, paths, j);
      OwnOnion(e, init, cs, paths, j, k);
      CtReachesProxy(e, init, j, v, paths[j][k]);
    }
  }

  lemma LaunchedSizes(e: CtEnv, init: CtNodes, cs: seq<Contribution>, paths: seq<seq<seq<nat>>>, j: nat)
    requires |init| == e.n && Launched(e, init, cs, paths) && j < |cs|
    ensures |cs| == |paths| == e.n && |paths[j]| == |cs[j].tuple.proxies|
  {
    assert LaunchedBy(e, init[j], j, cs[j], paths[j]);
  }

  // ---- up to the utility ----

  /** The aggregate phase starts with what the overlay has collected. */
  ghost predicate Continues(e: CtEnv, init: CtNodes, q: TreeRun.Setup, cs: seq<Contribution>)
    requires Ready(e, init)
  {
    && TreeRun.SetupOk(q) && q.crashed == {} && q.meters == e.n == |cs|
    && (forall j :: 0 <= j < |cs| ==> Groups.ProxiesOk(cs[j].tuple.proxies, j, q.groups, q.meters))
    && (forall i :: 0 <= i < q.meters ==> q.held[i] == StateAt(e, init, LastRound(e.c), i))
  }

  /**
   * The whole crash-tolerant protocol when nobody fails and the planned paths end in time: for distinct contributions
   * every group's root sends the utility the sum over all meters.
   */
  lemma CtEndToEnd(e: CtEnv, init: CtNodes, cs: seq<Contribution>, paths: seq<seq<seq<nat>>>, q: TreeRun.Setup,
                   ms: seq<TreeRun.Move>, g: int, k: nat) returns (report: TreeAggregation.Message)
    requires Ready(e, init) && CtSystem(e) && Echoes(e) && Launched(e, init, cs, paths) && AllInTime(e, paths)
    requires Continues(e, init, q, cs) && Conservation.Distinct(cs)
    requires TreeRun.IsRun(q, TreeRun.Begin(q), ms) && TreeRun.Quiet(q, TreeRun.After(q, TreeRun.Begin(q), ms))
    requires 0 <= g < q.groups && k < q.length
    ensures var root := Groups.First(g, q.groups, q.meters);
            0 <= root < q.meters && TreeRun.After(q, TreeRun.Begin(q), ms).meters[root].sent == [report]
    ensures |report.body| == q.length && report.body[k] == Conservation.SumOfMeters(q.single, k, cs)
  {
    hide TreeRun.IsRun, TreeRun.Quiet, TreeRun.After, Conservation.SumOfMeters, Groups.First, Conservation.Distinct;
    hide Ready, CtSystem, Echoes, Launched, AllInTime, StateAt, TreeRun.KnowsChildren, Groups.Sane, Groups.ProxiesOk;
    forall i: nat, v | i < q.meters ensures v in q.held[i] <==> Conservation.NamedBy(cs, i, v) {
      CollectExactly(e, init, cs, paths, i, v);
    }
    Conservation.CollectedIff(q, cs);
    hide Conservation.Collected;
    report := Conservation.EndToEnd(q, cs, ms, g, k);
  }

  /** With the code's parameters, in a system of up to 32 meters, all paths end in time. */
  lemma SmallSystemsInTime(e: CtEnv, init: CtNodes, cs: seq<Contribution>, paths: seq<seq<seq<nat>>>)
    requires |init| == e.n && Launched(e, init, cs, paths) && 2 <= e.n <= 32
    requires e.c == Config(CT, CeilLog2(e.n), CeilLog2(e.n))
    requires forall j :: 0 <= j < |cs| ==> |cs[j].tuple.proxies| == CeilLog2(e.n) + 1
    ensures AllInTime(e, paths)
  {
    hide EndsBy, PathFinder.RoundsLimit, PathFinder.Planned, LastRound, CeilLog2;
    forall j: nat, k: nat | j < |paths| && k < |paths[j]| ensures EndsBy(j, paths[j][k], e.n, 0, LastRound(e.c)) {
      assert LaunchedBy(e, init[j], j, cs[j], paths[j]);
      assert PathFinder.Planned(j, cs[j].tuple.proxies, e.n, 0, paths[j], k);
      PlannedEndsBy(j, cs[j].tuple.proxies, e.n, 0, paths[j], k);
      PlannerLimits(e.n);
      EndsByLater(j, paths[j][k], e.n, 0, PathFinder.RoundsLimit(e.n, |paths[j]|) - 1, LastRound(e.c));
    }
  }
}
