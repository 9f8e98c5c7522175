/**
 * What the flooding protocol collects, exactly: every contribution at the proxies its owner chose and nowhere else
 * (src/HftProtocolState.cpp:34-109), up to the sum that reaches the utility.
 */
module Gather {
  import opened Arith
  import opened Overlay
  import opened Phases
  import opened RoundEngine
  import opened AsyncRefinement
  import opened Routing
  import opened Hft
  import opened Flood
  import opened Crusader
  import Groups
  import TreeAggregation
  import TreeRun
  import Conservation

  // ---- what one meter collects ----

  /** Among ts is v, addressed to id. */
  ghost predicate Brought(ts: seq<Transport<Contribution>>, id: nat, v: Contribution) {
    exists k :: 0 <= k < |ts| && ts[k].message.dest == id && ts[k].message.body == Value(v)
  }

  lemma ReceiveValues(p: HftState, id: nat, ph: Phase, m: Message<Contribution>, query: int, v: Contribution)
    ensures v in Receive(p, id, ph, m, query).0.proxyValues <==>
              v in p.proxyValues || (m.dest == id && m.body == Value(v) && ph == Second && v.tuple.query == query)
  {
  }

  lemma {:induction false} AbsorbAllValues(e: HftEnv, nd: HftNode, ts: seq<Transport<Contribution>>, v: Contribution)
    requires e.impl == HftImpl(e.n, e.query) && Clean(nd) && FloodBatch(ts)
    ensures v in AbsorbAll(e, nd, ts).proto.proxyValues <==>
              v in nd.proto.proxyValues || (nd.ps.phase == Second && v.tuple.query == e.query && Brought(ts, nd.id, v))
    decreases |ts|
  {
    hide Absorb, IsFlood, Receive, AllFloods;
    if ts != [] {
      assert ts[0] in ts;
      AbsorbFlood(e, nd, ts[0]);
      ReceiveValues(nd.proto, nd.id, nd.ps.phase, ts[0].message, e.query, v);
      AbsorbAllValues(e, Absorb(e, nd, ts[0]), ts[1..], v);
      BroughtFirst(ts, nd.id, v);
    }
  }

  lemma BroughtFirst(ts: seq<Transport<Contribution>>, id: nat, v: Contribution)
    requires ts != []
    ensures Brought(ts, id, v) <==>
              (ts[0].message.dest == id && ts[0].message.body == Value(v)) || Brought(ts[1..], id, v)
  {
    assert forall k :: 0 < k < |ts| ==> ts[k] == ts[1..][k - 1];
    assert forall k :: 0 <= k < |ts| - 1 ==> ts[1..][k] == ts[k + 1];
  }

  /** In round r, a GATHER round, x is handed v. */
  ghost predicate GatheredAt(e: HftEnv, init: seq<HftNode>, r: nat, x: nat, v: Contribution)
    requires Ready(e, init) && r <= LastRound(e.c) && x < e.n
  {
    PhaseAt(e.c, r - 1).phase == Second && v.tuple.query == e.query && Brought(Inbound(e, init, r, x), x, v)
  }

  lemma RoundValues(e: HftEnv, init: seq<HftNode>, r: nat, x: nat, v: Contribution)
    requires HftReady(e, init) && r <= LastRound(e.c) && x < e.n
    ensures v in Handled(e, init, r, x).proxyValues <==>
              || v in (if r == 0 then init[x].proto.proxyValues else Handled(e, init, r - 1, x).proxyValues)
              || GatheredAt(e, init, r, x, v)
  {
    hide LockNode, PreBatch, LockInv, Inbound, Target, Clean, AllFloods, FloodBatch, AbsorbAll, PhaseAt, Brought;
    AlwaysClean(e, init, r, x);
    CleanSend(e, init, r, x);
    LockId(e, init, r, x);
    AbsorbAllValues(e, LockNode(e, init, r, x), Inbound(e, init, r, x), v);
    if r == 0 {
      Flood.CleanFirst(e, init, x);
    } else {
      AlwaysClean(e, init, r - 1, x);
      CleanNext(e, init, r - 1, x);
    }
  }

  /** A meter's proxy values: those it had, and the values of this query it was handed in GATHER, addressed to it. */
  lemma {:induction false} ValuesExactly(e: HftEnv, init: seq<HftNode>, r: nat, x: nat, v: Contribution)
    requires HftReady(e, init) && r <= LastRound(e.c) && x < e.n
    ensures v in Handled(e, init, r, x).proxyValues <==>
              v in init[x].proto.proxyValues || exists s: nat :: s <= r && GatheredAt(e, init, s, x, v)
    decreases r
  {
    hide HftReady, Handled, GatheredAt;
    assert HftReady(e, init) ==> Ready(e, init) by { ReadyToo(e, init); }
    RoundValues(e, init, r, x, v);
    if r > 0 {
      ValuesExactly(e, init, r - 1, x, v);
    }
  }

  lemma ReadyToo(e: HftEnv, init: seq<HftNode>)
    requires HftReady(e, init)
    ensures Ready(e, init)
  {
  }

  lemma {:induction false} AbsorbAllRelays(e: HftEnv, nd: HftNode, ts: seq<Transport<Contribution>>)
    requires e.impl == HftImpl(e.n, e.query) && Clean(nd) && FloodBatch(ts) && nd.ps.phase == Second
    ensures AbsorbAll(e, nd, ts).proto.relay == nd.proto.relay
    decreases |ts|
  {
    hide Absorb, IsFlood, AllFloods;
    if ts != [] {
      assert ts[0] in ts;
      AbsorbFlood(e, nd, ts[0]);
      AbsorbAllRelays(e, Absorb(e, nd, ts[0]), ts[1..]);
    }
  }

  /** What is to be relayed is collected in SCATTER alone. */
  lemma {:induction false} NothingRelayedLater(e: HftEnv, init: seq<HftNode>, r: nat, x: nat)
    requires HftReady(e, init) && PhaseLength(e.c) < r <= LastRound(e.c) && PhaseLength(e.c) > 0 && x < e.n
    ensures Handled(e, init, r, x).relay == []
    decreases r
  {
    hide LockNode, PreBatch, LockInv, Inbound, Target, Clean, AllFloods, FloodBatch, AbsorbAll, PhaseAt, HftReady;
    ReadyToo(e, init);
    var pl := PhaseLength(e.c);
    PhaseSchedule(e.c, r - 1);
    PhaseSchedule(e.c, r - 2);
    assert e.c.variant == HFT && e.impl == HftImpl(e.n, e.query) by { HftParts(e, init); }
    AlwaysClean(e, init, r, x);
    CleanSend(e, init, r, x);
    LockId(e, init, r, x);
    AbsorbAllRelays(e, LockNode(e, init, r, x), Inbound(e, init, r, x));
    AlwaysClean(e, init, r - 1, x);
    CleanNext(e, init, r - 1, x);
    if r > pl + 1 { NothingRelayedLater(e, init, r - 1, x); }
  }

  lemma HftParts(e: HftEnv, init: seq<HftNode>)
    requires HftReady(e, init)
    ensures e.c.variant == HFT && e.impl == HftImpl(e.n, e.query)
  {
  }

  // ---- sets, kept as sequences ----

  predicate Once<T(==)>(s: seq<T>) {
    forall j, k :: 0 <= j < k < |s| ==> s[j] != s[k]
  }

  ghost predicate NothingTwice(p: HftState) {
    Once(p.current) && Once(p.relay) && Once(p.proxyValues)
  }

  lemma ReceiveOnce(p: HftState, id: nat, ph: Phase, m: Message<Contribution>, query: int)
    requires NothingTwice(p)
    ensures NothingTwice(Receive(p, id, ph, m, query).0)
  {
  }

  lemma {:induction false} AbsorbAllOnce(e: HftEnv, nd: HftNode, ts: seq<Transport<Contribution>>)
    requires e.impl == HftImpl(e.n, e.query) && Clean(nd) && FloodBatch(ts) && NothingTwice(nd.proto)
    ensures NothingTwice(AbsorbAll(e, nd, ts).proto)
    decreases |ts|
  {
    hide Absorb, IsFlood, Receive, AllFloods, NothingTwice;
    if ts != [] {
      assert ts[0] in ts;
      AbsorbFlood(e, nd, ts[0]);
      ReceiveOnce(nd.proto, nd.id, nd.ps.phase, ts[0].message, e.query);
      AbsorbAllOnce(e, Absorb(e, nd, ts[0]), ts[1..]);
    }
  }

  lemma {:induction false} StillFloodingOnce(ms: seq<Message<Contribution>>, target: nat)
    requires Once(ms)
    ensures Once(StillFlooding(ms, target))
  {
    if ms != [] {
      assert forall k :: 0 < k < |ms| ==> ms[k] == ms[1..][k - 1];
      StillFloodingOnce(ms[1..], target);
      StillFloodingMembers(ms[1..], target);
    }
  }

  ghost predicate OnceAt(e: HftEnv, init: seq<HftNode>, r: nat, x: nat)
    requires Ready(e, init) && r <= LastRound(e.c) && x < e.n
  {
    var p := PreBatch(e, init, r, x);
    Once(p.outgoing) && Once(p.proto.relay) && Once(p.proto.proxyValues)
  }

  /** A meter sends no flood twice in a round, and holds no relayed message and no contribution twice. */
  lemma {:induction false} FloodsOnce(e: HftEnv, init: seq<HftNode>, r: nat, x: nat)
    requires HftReady(e, init) && r <= LastRound(e.c) && x < e.n
    requires forall j :: 0 <= j < e.n ==> NothingTwice(init[j].proto)
    ensures OnceAt(e, init, r, x)
    decreases r
  {
    hide LockNode, PreBatch, LockInv, Inbound, Clean, CleanBatch, AllFloods, FloodBatch, AbsorbAll, PhaseAt, HftReady;
    ReadyToo(e, init);
    if r == 0 {
      Flood.CleanFirst(e, init, x);
      assert NothingTwice(init[x].proto);
    } else {
      FloodsOnce(e, init, r - 1, x);
      OnceNext(e, init, r - 1, x);
    }
  }

  lemma OnceNext(e: HftEnv, init: seq<HftNode>, r: nat, x: nat)
    requires HftReady(e, init) && r < LastRound(e.c) && x < e.n && OnceAt(e, init, r, x)
    ensures OnceAt(e, init, r + 1, x)
  {
    hide LockNode, PreBatch, LockInv, Inbound, Target, Clean, AllFloods, FloodBatch, AbsorbAll, PhaseAt, StillFlooding, Once;
    AlwaysClean(e, init, r, x);
    CleanSend(e, init, r, x);
    StillFloodingOnce(PreBatch(e, init, r, x).outgoing, Target(x, r, e.n));
    AbsorbAllOnce(e, LockNode(e, init, r, x), Inbound(e, init, r, x));
    CleanNext(e, init, r, x);
    EmptyOnce<Message<Contribution>>();
  }

  lemma EmptyOnce<T>()
    ensures Once<T>([])
  {
  }

  // ---- which messages there are ----

  /** m carries some meter's contribution to one of the proxies it names. */
  ghost predicate Rightful(m: Message<Contribution>, cs: seq<Contribution>) {
    match m.body
    case Null => true
    case Layer(inner) => Rightful(inner, cs)
    case Value(v) => exists j :: 0 <= j < |cs| && v == cs[j] && m.dest in cs[j].tuple.proxies
  }

  ghost predicate AllRightful(ms: seq<Message<Contribution>>, cs: seq<Contribution>) {
    forall m :: m in ms ==> Rightful(m, cs)
  }

  ghost predicate RightfulBatch(ts: seq<Transport<Contribution>>, cs: seq<Contribution>) {
    forall t :: t in ts ==> Rightful(t.message, cs)
  }

  lemma ReceiveRightful(p: HftState, id: nat, ph: Phase, m: Message<Contribution>, query: int, cs: seq<Contribution>)
    requires AllRightful(p.current, cs) && AllRightful(p.relay, cs) && Rightful(m, cs)
    ensures var q := Receive(p, id, ph, m, query).0; AllRightful(q.current, cs) && AllRightful(q.relay, cs)
  {
  }

  lemma {:induction false} AbsorbAllRightful(e: HftEnv, nd: HftNode, ts: seq<Transport<Contribution>>, cs: seq<Contribution>)
    requires e.impl == HftImpl(e.n, e.query) && Clean(nd) && FloodBatch(ts) && RightfulBatch(ts, cs)
    requires AllRightful(nd.proto.current, cs) && AllRightful(nd.proto.relay, cs)
    ensures var a := AbsorbAll(e, nd, ts); AllRightful(a.proto.current, cs) && AllRightful(a.proto.relay, cs)
    decreases |ts|
  {
    hide Absorb, IsFlood, Receive, AllFloods, Rightful, AllRightful;
    if ts != [] {
      assert ts[0] in ts;
      AbsorbFlood(e, nd, ts[0]);
      ReceiveRightful(nd.proto, nd.id, nd.ps.phase, ts[0].message, e.query, cs);
      AbsorbAllRightful(e, Absorb(e, nd, ts[0]), ts[1..], cs);
    }
  }

  /** Every meter j has put cs[j] in two layers for each of its proxies, and floods nothing else. */
  ghost predicate Launched(e: HftEnv, init: seq<HftNode>, cs: seq<Contribution>, relays: seq<seq<nat>>)
    requires |init| == e.n
  {
    && |cs| == |relays| == e.n
    && forall j :: 0 <= j < e.n ==> LaunchedBy(e, init[j], cs[j], relays[j])
  }

  ghost predicate LaunchedBy(e: HftEnv, nd: HftNode, c: Contribution, relays: seq<nat>) {
    && c.tuple.query == e.query && |relays| == |c.tuple.proxies| && nd.proto.proxyValues == []
    && (forall k :: 0 <= k < |relays| ==> relays[k] < e.n && c.tuple.proxies[k] < e.n)
    && forall m :: m in nd.proto.current
         <==> exists k :: 0 <= k < |relays| && m == TwoLayers(e.query, relays[k], c.tuple.proxies[k], c)
  }

  ghost predicate RightfulAt(e: HftEnv, init: seq<HftNode>, r: nat, x: nat, cs: seq<Contribution>)
    requires Ready(e, init) && r <= LastRound(e.c) && x < e.n
  {
    AllRightful(PreBatch(e, init, r, x).outgoing, cs) && AllRightful(PreBatch(e, init, r, x).proto.relay, cs)
  }

  lemma FirstRightful(e: HftEnv, init: seq<HftNode>, x: nat, cs: seq<Contribution>, relays: seq<seq<nat>>)
    requires HftReady(e, init) && x < e.n && Launched(e, init, cs, relays)
    ensures RightfulAt(e, init, 0, x, cs)
  {
    hide PreBatch;
    Flood.CleanFirst(e, init, x);
    assert LaunchedBy(e, init[x], cs[x], relays[x]);
    forall m | m in init[x].proto.current ensures Rightful(m, cs) {
      var k :| 0 <= k < |relays[x]| && m == TwoLayers(e.query, relays[x][k], cs[x].tuple.proxies[k], cs[x]);
      assert cs[x].tuple.proxies[k] in cs[x].tuple.proxies;
    }
  }

  lemma InboundRightful(e: HftEnv, init: seq<HftNode>, r: nat, x: nat, cs: seq<Contribution>)
    requires HftReady(e, init) && r <= LastRound(e.c) && x < e.n
    requires RightfulAt(e, init, r, Predecessor(x, r, e.n), cs)
    ensures RightfulBatch(Inbound(e, init, r, x), cs)
  {
    hide LockNode, PreBatch, LockInv, Inbound, Predecessor, HftReady;
    ReadyToo(e, init);
    var ts := Inbound(e, init, r, x);
    forall t | t in ts ensures Rightful(t.message, cs) {
      var k :| 0 <= k < |ts| && ts[k] == t;
      assert Payloads(ts)[k] == t.message;
      if t.message.body != Null { ReceivesIff(e, init, r, x, t.message); }
    }
  }

  lemma NextRightful(e: HftEnv, init: seq<HftNode>, r: nat, x: nat, cs: seq<Contribution>)
    requires HftReady(e, init) && r < LastRound(e.c) && x < e.n
    requires RightfulAt(e, init, r, x, cs) && RightfulBatch(Inbound(e, init, r, x), cs)
    ensures RightfulAt(e, init, r + 1, x, cs)
  {
    hide LockNode, PreBatch, LockInv, Inbound, Target, Clean, AllFloods, FloodBatch, AbsorbAll, PhaseAt, Rightful;
    hide StillFlooding;
    var p, nd, ts := PreBatch(e, init, r, x), LockNode(e, init, r, x), Inbound(e, init, r, x);
    AlwaysClean(e, init, r, x);
    CleanSend(e, init, r, x);
    StillFloodingMembers(p.outgoing, Target(x, r, e.n));
    AbsorbAllRightful(e, nd, ts, cs);
    CleanNext(e, init, r, x);
  }

  lemma {:induction false} AlwaysRightful(e: HftEnv, init: seq<HftNode>, r: nat, x: nat, cs: seq<Contribution>,
                                          relays: seq<seq<nat>>)
    requires HftReady(e, init) && r <= LastRound(e.c) && x < e.n && Launched(e, init, cs, relays)
    ensures RightfulAt(e, init, r, x, cs)
    decreases r
  {
    hide RightfulAt, RightfulBatch, HftReady, Launched, Inbound, Predecessor;
    ReadyToo(e, init);
    if r == 0 {
      FirstRightful(e, init, x, cs, relays);
    } else {
      AlwaysRightful(e, init, r - 1, x, cs, relays);
      AlwaysRightful(e, init, r - 1, Predecessor(x, r - 1, e.n), cs, relays);
      InboundRightful(e, init, r - 1, x, cs);
      NextRightful(e, init, r - 1, x, cs);
    }
  }

  // ---- who holds what at the end ----

  /** When the overlay ends, a meter holds exactly the contributions that name it as a proxy. */
  lemma GatherExactly(e: HftEnv, init: seq<HftNode>, cs: seq<Contribution>, relays: seq<seq<nat>>, x: nat, v: Contribution)
    requires HftReady(e, init) && Launched(e, init, cs, relays) && x < e.n
    requires e.n >= 3 && e.n % 2 == 1 && e.c.l == CeilLog2(e.n)
    ensures v in Handled(e, init, LastRound(e.c), x).proxyValues
            <==> exists j :: 0 <= j < e.n && v == cs[j] && x in cs[j].tuple.proxies
  {
    hide HftReady, Launched, Inbound, Handled, CeilLog2, PhaseAt, RightfulAt;
    ReadyToo(e, init);
    LaunchedFacts(e, init, cs, relays);
    ValuesExactly(e, init, LastRound(e.c), x, v);
    if s: nat :| s <= LastRound(e.c) && GatheredAt(e, init, s, x, v) {
      AlwaysRightful(e, init, s, Predecessor(x, s, e.n), cs, relays);
      InboundRightful(e, init, s, x, cs);
      var ts := Inbound(e, init, s, x);
      var k :| 0 <= k < |ts| && ts[k].message.dest == x && ts[k].message.body == Value(v);
      assert Rightful(ts[k].message, cs);
    }
    if j :| 0 <= j < e.n && v == cs[j] && x in cs[j].tuple.proxies {
      var k :| 0 <= k < |cs[j].tuple.proxies| && cs[j].tuple.proxies[k] == x;
      LaunchedBySome(e, init, cs, relays, j, k);
      ContributionReachesProxy(e, init, j, relays[j][k], x, v);
    }
  }

  lemma LaunchedFacts(e: HftEnv, init: seq<HftNode>, cs: seq<Contribution>, relays: seq<seq<nat>>)
    requires |init| == e.n && Launched(e, init, cs, relays)
    ensures |cs| == |relays| == e.n && forall j :: 0 <= j < e.n ==> init[j].proto.proxyValues == []
  {
    forall j | 0 <= j < e.n ensures init[j].proto.proxyValues == [] {
      assert LaunchedBy(e, init[j], cs[j], relays[j]);
    }
  }

  lemma LaunchedBySome(e: HftEnv, init: seq<HftNode>, cs: seq<Contribution>, relays: seq<seq<nat>>, j: nat, k: nat)
    requires |init| == e.n && Launched(e, init, cs, relays) && j < e.n && k < |cs[j].tuple.proxies|
    ensures k < |relays[j]| && relays[j][k] < e.n && cs[j].tuple.query == e.query
    ensures TwoLayers(e.query, relays[j][k], cs[j].tuple.proxies[k], cs[j]) in init[j].proto.current
  {
    assert LaunchedBy(e, init[j], cs[j], relays[j]);
  }

  // ---- up to the utility ----

  ghost function SetOf(s: seq<Contribution>): set<Contribution> {
    set v | v in s
  }

  /** The aggregate phase starts with what the overlay has collected. */
  ghost predicate Continues(e: HftEnv, init: seq<HftNode>, q: TreeRun.Setup, cs: seq<Contribution>)
    requires Ready(e, init)
  {
    && TreeRun.SetupOk(q) && q.crashed == {} && q.meters == e.n == |cs|
    && (forall j :: 0 <= j < |cs| ==> Groups.ProxiesOk(cs[j].tuple.proxies, j, q.groups, q.meters))
    && (forall i :: 0 <= i < q.meters ==> q.held[i] == SetOf(Handled(e, init, LastRound(e.c), i).proxyValues))
  }

  lemma GatherCollects(e: HftEnv, init: seq<HftNode>, cs: seq<Contribution>, relays: seq<seq<nat>>, q: TreeRun.Setup)
    requires HftReady(e, init) && Launched(e, init, cs, relays) && Continues(e, init, q, cs)
    requires e.n >= 3 && e.n % 2 == 1 && e.c.l == CeilLog2(e.n)
    ensures Conservation.Collected(q, cs)
  {
    hide HftReady, Launched, Handled, CeilLog2, TreeRun.KnowsChildren, Groups.Sane, Groups.ProxiesOk;
    ReadyToo(e, init);
    forall i: nat, v | i < q.meters ensures v in q.held[i] <==> Conservation.NamedBy(cs, i, v) {
      GatherExactly(e, init, cs, relays, i, v);
    }
    Conservation.CollectedIff(q, cs);
  }

  /**
   * The whole flooding protocol when nobody fails: for distinct contributions every group's root sends the utility the
   * sum over all meters, however the aggregation messages are delayed.
   */
  lemma HftEndToEnd(e: HftEnv, init: seq<HftNode>, cs: seq<Contribution>, relays: seq<seq<nat>>, q: TreeRun.Setup,
                    ms: seq<TreeRun.Move>, g: int, k: nat) returns (report: TreeAggregation.Message)
    requires HftReady(e, init) && Launched(e, init, cs, relays) && Continues(e, init, q, cs)
    requires e.n >= 3 && e.n % 2 == 1 && e.c.l == CeilLog2(e.n)
    requires TreeRun.IsRun(q, TreeRun.Begin(q), ms) && TreeRun.Quiet(q, TreeRun.After(q, TreeRun.Begin(q), ms))
    requires 0 <= g < q.groups && k < q.length && Conservation.Distinct(cs)
    ensures var root := Groups.First(g, q.groups, q.meters);
            0 <= root < q.meters && TreeRun.After(q, TreeRun.Begin(q), ms).meters[root].sent == [report]
    ensures |report.body| == q.length && report.body[k] == Conservation.SumOfMeters(q.single, k, cs)
  {
    hide HftReady, Launched, Continues, Conservation.Collected, Conservation.Distinct, CeilLog2;
    hide TreeRun.IsRun, TreeRun.Quiet, TreeRun.After, Conservation.SumOfMeters, Groups.First;
    ReadyToo(e, init);
    GatherCollects(e, init, cs, relays, q);
    report := Conservation.EndToEnd(q, cs, ms, g, k);
  }
}
