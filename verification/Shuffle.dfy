/**
 * The crash- and Byzantine-tolerant protocols as whole systems: which contributions, echoes and signatures reach the
 * proxies (src/ProtocolState_impl.h:63-80, src/CtProtocolState.cpp, src/BftProtocolState.cpp).
 */
module Shuffle {
  import opened Arith
  import opened Overlay
  import opened Phases
  import opened RoundEngine
  import opened AsyncRefinement
  import opened Routing
  import opened Forwarding
  import opened Delivery
  import opened Crusader
  import opened Multicasts
  import Agreement = CrusaderRun
  import PathFinder

  // ---- a contribution sent along planned paths ----

  /** encrypted_multicast_to_proxies has run at `source`, and no one else has c. */
  ghost predicate SentToProxies<P, V(!new)>(e: Env<P, V>, init: seq<Node<P, V>>, source: nat, c: Contribution, v: V,
                                            paths: seq<seq<nat>>) {
    && |init| == e.n && source < e.n && |paths| == |c.tuple.proxies|
    && PathFinder.PlannedUpTo(source, c.tuple.proxies, e.n, 0, paths, |paths|)
    && source !in c.tuple.proxies
    && (forall j, k :: 0 <= j < k < |c.tuple.proxies| ==> c.tuple.proxies[j] != c.tuple.proxies[k])
    && LaunchedAlone(e, init, source, v, paths)
  }

  lemma PlannedIsWalk(source: nat, targets: seq<nat>, n: nat, paths: seq<seq<nat>>, i: nat)
    requires n >= 1 && i < |targets| == |paths| && source !in targets
    requires PathFinder.PlannedUpTo(source, targets, n, 0, paths, |paths|)
    ensures |paths[i]| >= 1 && paths[i][|paths[i]| - 1] == targets[i] && StepsAway(paths[i])
    ensures Valid(source, paths[i], n) && targets[i] < n
  {
    hide Target;
    assert PathFinder.Planned(source, targets, n, 0, paths, i);
    PathFinder.PathShape(source, targets, n, 0, paths, i);
    var q := PathFinder.NthSearch(source, targets, n, 0, paths, i);
    var rounds :| PathFinder.Admissible([source] + paths[i], rounds, q);
    assert forall k :: 0 <= k < |paths[i]| ==> paths[i][k] == ([source] + paths[i])[k + 1];
  }

  lemma SoleForProxy<P(!new), V(!new)>(e: Env<P, V>, init: seq<Node<P, V>>, source: nat, c: Contribution, v: V,
                                       paths: seq<seq<nat>>, i: nat)
    requires Ready(e, init) && SentToProxies(e, init, source, c, v, paths) && i < |paths|
    requires forall p, id, a: PhaseState, b: PhaseState :: a.phase == First && b.phase == First ==>
               e.impl.roundEnd(p, id, a, b, -1).1 == []
    ensures |paths[i]| >= 1 && c.tuple.proxies[i] < e.n
    ensures SoleAt(e, init, 0, source, Onion(e.query, paths[i], v), v, {c.tuple.proxies[i]})
  {
    hide SoleAt, PathFinder.PlannedUpTo, Valid;
    forall j | 0 <= j < |paths| ensures |paths[j]| >= 1 && paths[j][|paths[j]| - 1] == c.tuple.proxies[j] {
      PlannedIsWalk(source, c.tuple.proxies, e.n, paths, j);
    }
    PlannedIsWalk(source, c.tuple.proxies, e.n, paths, i);
    LaunchIsSole(e, init, source, v, paths, i);
  }

  lemma OnionCarries<V>(query: int, path: seq<nat>, v: V)
    requires |path| >= 1
    ensures Carries(Onion(query, path, v), path, v)
  {
  }

  // ---- the crash-tolerant protocol ----

  /** handle_shuffle_phase_message and handle_echo_phase_message: both collect values of this query. */
  function CtDeliver(query: int): (set<Contribution>, Phase, Contribution) -> set<Contribution> {
    (p: set<Contribution>, ph: Phase, v: Contribution) =>
      if ph != Aggregate && v.tuple.query == query then p + {v} else p
  }

  function CtHolds(c: Contribution): set<Contribution> -> bool {
    p => c in p
  }

  function InOverlayPhase(ph: Phase): bool { ph != Aggregate }

  type CtEnv = Env<set<Contribution>, Contribution>
  type CtNodes = seq<Node<set<Contribution>, Contribution>>

  /** Ending a round keeps the proxy values; it sends messages at the end of shuffle alone. */
  ghost predicate CtSystem(e: CtEnv) {
    && e.c.variant == CT
    && (forall p, id, ph, m :: e.impl.receive(p, id, ph, m) == ForwardingReceive(CtDeliver(e.query))(p, id, ph, m))
    && (forall p, id, a, b, r :: e.impl.roundEnd(p, id, a, b, r).0 == p)
    && (forall p, id, a: PhaseState, b: PhaseState, r :: a.phase == b.phase ==> e.impl.roundEnd(p, id, a, b, r).1 == [])
  }

  lemma CtRecords(e: CtEnv, c: Contribution)
    requires CtSystem(e) && c.tuple.query == e.query
    ensures Records(e.impl, CtDeliver(e.query), CtHolds(c), c, InOverlayPhase)
    ensures OnlyBy(e.impl, CtDeliver(e.query), CtHolds(c), c, InOverlayPhase)
    ensures Forwards(e.impl)
  {
  }

  function OfQuery(c: Contribution, query: int): Phase -> bool {
    (ph: Phase) => ph != Aggregate && c.tuple.query == query
  }

  /**
   * What a CT meter holds: what it held at the start, and the contributions of this query that have been delivered to
   * it; so nothing of another query.
   */
  lemma CtHoldsExactly(e: CtEnv, init: CtNodes, r: nat, x: nat, c: Contribution)
    requires Ready(e, init) && CtSystem(e) && r <= LastRound(e.c) && x < e.n
    ensures c in StateAt(e, init, r, x) <==>
              c in init[x].proto || (c.tuple.query == e.query && exists s: nat :: s <= r && DeliveredAt(e, init, s, x, c))
  {
    hide StateAt, DeliveredAt, PhaseIn;
    var accepts := OfQuery(c, e.query);
    KeptIffDelivered(e, init, r, x, CtDeliver(e.query), CtHolds(c), c, accepts);
    forall s: nat | s <= r ensures accepts(PhaseIn(e.c, s)) <==> c.tuple.query == e.query { OverlayPhases(e.c, s); }
  }

  lemma OverlayPhases(c: Config, r: nat)
    requires r <= LastRound(c)
    ensures InOverlayPhase(PhaseIn(c, r))
    ensures r <= PhaseLength(c) ==> PhaseIn(c, r) == First
    ensures PhaseLength(c) > 0 && r > PhaseLength(c) ==> PhaseIn(c, r) == Second
  {
    hide PhaseAt;
    PhaseSchedule(c, r - 1);
  }

  /** No new copy before the shuffle phase has ended. */
  lemma NoNewsBefore<P(!new), V(!new)>(e: Env<P, V>, init: seq<Node<P, V>>, r: nat, v: V, zs: set<nat>)
    requires Ready(e, init) && 0 < r <= PhaseLength(e.c) && r <= LastRound(e.c)
    requires forall p, id, a: PhaseState, b: PhaseState, k :: a.phase == First && b.phase == First ==>
               e.impl.roundEnd(p, id, a, b, k).1 == []
    ensures NoNews(e, init, r, v, zs)
  {
    hide PhaseAt, PreBatch, StateAt, Ready;
    PhaseSchedule(e.c, r - 2);
    PhaseSchedule(e.c, r - 1);
    forall z: nat | z < e.n ensures PreBatch(e, init, r, z).outgoing == [] {
      EmittedIsOutgoing(e, init, r - 1, z);
    }
  }

  /**
   * At the end of the shuffle phase a proxy has a contribution if and only if the path planned for it can be travelled
   * by then.
   */
  lemma CtShuffleDelivers(e: CtEnv, init: CtNodes, source: nat, c: Contribution, paths: seq<seq<nat>>, i: nat)
    requires Ready(e, init) && CtSystem(e) && c.tuple.query == e.query
    requires SentToProxies(e, init, source, c, c, paths) && i < |paths|
    requires forall j :: 0 <= j < e.n ==> c !in init[j].proto
    ensures c.tuple.proxies[i] < e.n
    ensures c in StateAt(e, init, PhaseLength(e.c), c.tuple.proxies[i])
            <==> EndsBy(source, paths[i], e.n, 0, PhaseLength(e.c))
  {
    hide StateAt, SoleAt, Carries, Onion, Records, OnlyBy, PathFinder.PlannedUpTo, EndsBy, PhaseIn, Valid, StepsAway;
    hide NoNews, LaunchedAlone;
    var z, pl := c.tuple.proxies[i], PhaseLength(e.c);
    SoleForProxy(e, init, source, c, c, paths, i);
    PlannedIsWalk(source, c.tuple.proxies, e.n, paths, i);
    OnionCarries(e.query, paths[i], c);
    CtRecords(e, c);
    forall s: nat | s <= pl ensures InOverlayPhase(PhaseIn(e.c, s)) { OverlayPhases(e.c, s); }
    forall u: nat {:trigger NoNews(e, init, u, c, {z})} | 0 < u <= pl ensures NoNews(e, init, u, c, {z}) {
      NoNewsBefore(e, init, u, c, {z});
    }
    KeptIff(e, init, source, Onion(e.query, paths[i], c), paths[i], c, z, pl, pl,
            CtDeliver(e.query), CtHolds(c), InOverlayPhase);
  }

  /** What a proxy is sent along a path that ends within the overlay, it has when the overlay ends. */
  lemma CtHeldReaches(e: CtEnv, init: CtNodes, source: nat, c: Contribution, path: seq<nat>, start: nat,
                      m: Message<Contribution>)
    requires Ready(e, init) && CtSystem(e) && source < e.n && c.tuple.query == e.query && |path| >= 1
    requires start <= LastRound(e.c) && EndsBy(source, path, e.n, start, LastRound(e.c))
    requires Held(e, init, start, source, m) && Carries(m, path, c)
    ensures path[|path| - 1] < e.n && c in StateAt(e, init, LastRound(e.c), path[|path| - 1])
  {
    hide StateAt, Held, Carries, Records, OnlyBy, EndsBy, HandledBy, PhaseIn;
    CtRecords(e, c);
    var r, from := PathIsRealised(e, init, source, path, start, LastRound(e.c), m, c);
    OverlayPhases(e.c, r);
    HandledIsKept(e, init, r, from, path[|path| - 1], LastRound(e.c), CtDeliver(e.query), CtHolds(c), c, InOverlayPhase);
  }

  /** A contribution's onion that can reach its proxy by the end of the echo phase does so. */
  lemma CtReachesProxy(e: CtEnv, init: CtNodes, source: nat, c: Contribution, path: seq<nat>)
    requires Ready(e, init) && CtSystem(e) && source < e.n && c.tuple.query == e.query && |path| >= 1
    requires Onion(e.query, path, c) in init[source].outgoing && EndsBy(source, path, e.n, 0, LastRound(e.c))
    ensures path[|path| - 1] < e.n && c in StateAt(e, init, LastRound(e.c), path[|path| - 1])
  {
    hide Held, Carries, Onion, EndsBy, StateAt;
    LaunchedIsHeld(e, init, source, Onion(e.query, path, c));
    OnionCarries(e.query, path, c);
    CtHeldReaches(e, init, source, c, path, 0, Onion(e.query, path, c));
  }

  /** An echo that can reach its proxy by the end of the echo phase does so. */
  lemma CtEchoReachesProxy(e: CtEnv, init: CtNodes, x: nat, c: Contribution, path: seq<nat>)
    requires Ready(e, init) && CtSystem(e) && x < e.n && c.tuple.query == e.query && |path| >= 1
    requires PathMessage(e.query, path, c) in Emitted(e, init, PhaseLength(e.c), x)
    requires EndsBy(x, path, e.n, PhaseLength(e.c) + 1, LastRound(e.c))
    ensures path[|path| - 1] < e.n && c in StateAt(e, init, LastRound(e.c), path[|path| - 1])
  {
    hide Held, EndsBy, StateAt, Emitted;
    EmittedIsHeld(e, init, PhaseLength(e.c), x, PathMessage(e.query, path, c));
    CtHeldReaches(e, init, x, c, path, PhaseLength(e.c) + 1, PathMessage(e.query, path, c));
  }

  /**
   * With the code's FAILURES_TOLERATED and numbers of proxies, in a system of up to 32 meters every contribution
   * reaches all its proxies: the planner's limit is within the overlay.
   */
  lemma CtSmallSystems(e: CtEnv, init: CtNodes, source: nat, c: Contribution, paths: seq<seq<nat>>, i: nat)
    requires Ready(e, init) && CtSystem(e) && c.tuple.query == e.query && 2 <= e.n <= 32
    requires e.c == Config(CT, CeilLog2(e.n), CeilLog2(e.n)) && |c.tuple.proxies| == CeilLog2(e.n) + 1
    requires SentToProxies(e, init, source, c, c, paths) && i < |paths|
    ensures c.tuple.proxies[i] < e.n && c in StateAt(e, init, LastRound(e.c), c.tuple.proxies[i])
  {
    hide PathFinder.PlannedUpTo, EndsBy, StateAt, Onion, CtSystem, Ready, PathFinder.RoundsLimit, LastRound, CeilLog2;
    hide PathFinder.Planned;
    assert PathFinder.Planned(source, c.tuple.proxies, e.n, 0, paths, i) by { PlannedAt(e, source, c, paths, i); }
    PlannedIsWalk(source, c.tuple.proxies, e.n, paths, i);
    PlannedEndsBy(source, c.tuple.proxies, e.n, 0, paths, i);
    PlannerLimits(e.n);
    EndsByLater(source, paths[i], e.n, 0, PathFinder.RoundsLimit(e.n, |paths|) - 1, LastRound(e.c));
    CtReachesProxy(e, init, source, c, paths[i]);
  }

  lemma PlannedAt(e: CtEnv, source: nat, c: Contribution, paths: seq<seq<nat>>, i: nat)
    requires e.n >= 1 && i < |paths| == |c.tuple.proxies|
    requires PathFinder.PlannedUpTo(source, c.tuple.proxies, e.n, 0, paths, |paths|)
    ensures PathFinder.Planned(source, c.tuple.proxies, e.n, 0, paths, i)
  {
  }

  // ---- the Byzantine-tolerant protocol ----

  function AgreementPhase(ph: Phase): Agreement.Phase {
    match ph
    case First => Agreement.Shuffle
    case Second => Agreement.Agreement
    case Aggregate => Agreement.Aggregate
  }

  /** The handlers of CrusaderRun, in the phase the engine is in. */
  function BftDeliver(s: Agreement.Setting): (Agreement.Proxy, Phase, Agreement.Body) -> Agreement.Proxy {
    (p: Agreement.Proxy, ph: Phase, b: Agreement.Body) =>
      Agreement.Receive(s, p.(phase := AgreementPhase(ph)), b)
  }

  function BftHolds(c: Contribution): Agreement.Proxy -> bool {
    (p: Agreement.Proxy) => c in p.proxyValues
  }

  function IsFirst(ph: Phase): bool { ph == First }

  function IsSecond(ph: Phase): bool { ph == Second }

  /** The value with this meter's signature alone. */
  function SignAlone(id: nat): Contribution -> Agreement.Body {
    v => Agreement.Signed(SignedValue(v, map[id as int := Sig(id, v)]))
  }

  function HasSignature(c: Contribution, id: int): Agreement.Proxy -> bool {
    (p: Agreement.Proxy) => c in p.table && id in p.table[c]
  }

  type BftEnv = Env<Agreement.Proxy, Agreement.Body>
  type BftNodes = seq<Node<Agreement.Proxy, Agreement.Body>>

  /**
   * Ending a round keeps values and signatures, sends messages at the end of shuffle and of phase 1 of agreement alone,
   * and accepts, when the overlay ends, what has enough signatures.
   */
  ghost predicate BftSystem(e: BftEnv, s: Agreement.Setting) {
    && e.c.variant == BFT && s.query == e.query && s.log2n == e.c.l
    && (forall p, id, ph, m :: e.impl.receive(p, id, ph, m) == ForwardingReceive(BftDeliver(s))(p, id, ph, m))
    && (forall p, id, a, b, r ::
          var q := e.impl.roundEnd(p, id, a, b, r).0; q.proxyValues == p.proxyValues && q.table == p.table)
    && (forall p, id, a: PhaseState, b: PhaseState, r :: a.phase == First && b.phase == First ==>
          e.impl.roundEnd(p, id, a, b, r).1 == [])
    && (forall p, id, a: PhaseState, b: PhaseState, r :: a.phase == Second && b.phase == Aggregate ==>
          e.impl.roundEnd(p, id, a, b, r).0.accepted == AcceptedValues(p.table, s.log2n))
  }

  lemma BftRecords(e: BftEnv, s: Agreement.Setting, c: Contribution)
    requires BftSystem(e, s) && c.tuple.query == s.query && OwnerVerifies(c)
    ensures Records(e.impl, BftDeliver(s), BftHolds(c), Agreement.Contributed(c), IsFirst)
    ensures OnlyBy(e.impl, BftDeliver(s), BftHolds(c), Agreement.Contributed(c), IsFirst)
    ensures Forwards(e.impl)
  {
    hide HandlePhase1, HandlePhase2;
    var deliver, body := BftDeliver(s), Agreement.Contributed(c);
    forall p: Agreement.Proxy, q, w
      ensures c in deliver(p, q, w).proxyValues <==> c in p.proxyValues || (w == body && q == First)
    {
      DeliverCollects(s, p, q, w, c);
    }
  }

  lemma DeliverCollects(s: Agreement.Setting, p: Agreement.Proxy, q: Phase, w: Agreement.Body, c: Contribution)
    ensures c in BftDeliver(s)(p, q, w).proxyValues
            <==> c in p.proxyValues
                 || (w == Agreement.Contributed(c) && q == First && c.tuple.query == s.query && OwnerVerifies(c))
  {
    hide HandlePhase1, HandlePhase2;
    var n := p.(phase := AgreementPhase(q));
    assert n.phase == Agreement.Shuffle <==> q == First;
    assert BftDeliver(s)(p, q, w) == Agreement.Receive(s, n, w);
  }

  function Checked(c: Contribution, query: int): Phase -> bool {
    (ph: Phase) => ph == First && c.tuple.query == query && OwnerVerifies(c)
  }

  /**
   * What a BFT meter holds: what it held at the start, and the contributions of this query with the utility's signature
   * that have been delivered to it during shuffle.
   */
  lemma BftHoldsExactly(e: BftEnv, init: BftNodes, s: Agreement.Setting, r: nat, x: nat, c: Contribution)
    requires Ready(e, init) && BftSystem(e, s) && r <= LastRound(e.c) && x < e.n
    ensures c in StateAt(e, init, r, x).proxyValues <==>
              || c in init[x].proto.proxyValues
              || (c.tuple.query == e.query && OwnerVerifies(c)
                  && exists k: nat ::
                       k <= r && k <= PhaseLength(e.c) && DeliveredAt(e, init, k, x, Agreement.Contributed(c)))
  {
    hide StateAt, DeliveredAt, PhaseIn;
    var accepts, body := Checked(c, e.query), Agreement.Contributed(c);
    CheckedRecords(e, s, c);
    KeptIffDelivered(e, init, r, x, BftDeliver(s), BftHolds(c), body, accepts);
    forall k: nat | k <= r ensures PhaseIn(e.c, k) == First <==> k <= PhaseLength(e.c) { OverlayPhases(e.c, k); }
  }

  lemma CheckedRecords(e: BftEnv, s: Agreement.Setting, c: Contribution)
    requires BftSystem(e, s)
    ensures Records(e.impl, BftDeliver(s), BftHolds(c), Agreement.Contributed(c), Checked(c, e.query))
    ensures OnlyBy(e.impl, BftDeliver(s), BftHolds(c), Agreement.Contributed(c), Checked(c, e.query))
  {
    hide HandlePhase1, HandlePhase2;
    var deliver, body := BftDeliver(s), Agreement.Contributed(c);
    forall p: Agreement.Proxy, q, w
      ensures c in deliver(p, q, w).proxyValues <==> c in p.proxyValues || (w == body && Checked(c, e.query)(q))
    {
      DeliverCollects(s, p, q, w, c);
    }
  }

  /**
   * A proxy has a signed contribution, from the end of shuffle to the end of the overlay, if and only if the path
   * planned for it can be travelled within the shuffle phase; later it is dropped as a message of the wrong phase.
   */
  lemma BftShuffleDelivers(e: BftEnv, init: BftNodes, s: Agreement.Setting, source: nat, c: Contribution,
                           paths: seq<seq<nat>>, i: nat, last: nat)
    requires Ready(e, init) && BftSystem(e, s) && PhaseLength(e.c) <= last <= LastRound(e.c)
    requires c.tuple.query == e.query && OwnerVerifies(c)
    requires SentToProxies(e, init, source, c, Agreement.Contributed(c), paths) && i < |paths|
    requires forall j :: 0 <= j < e.n ==> c !in init[j].proto.proxyValues
    ensures c.tuple.proxies[i] < e.n
    ensures c in StateAt(e, init, last, c.tuple.proxies[i]).proxyValues
            <==> EndsBy(source, paths[i], e.n, 0, PhaseLength(e.c))
  {
    hide StateAt, SoleAt, Carries, Onion, Records, OnlyBy, PathFinder.PlannedUpTo, EndsBy, PhaseIn, Valid, StepsAway;
    hide NoNews, LaunchedAlone;
    var z, pl, body := c.tuple.proxies[i], PhaseLength(e.c), Agreement.Contributed(c);
    SoleForProxy(e, init, source, c, body, paths, i);
    PlannedIsWalk(source, c.tuple.proxies, e.n, paths, i);
    OnionCarries(e.query, paths[i], body);
    BftRecords(e, s, c);
    forall r: nat | r <= last ensures IsFirst(PhaseIn(e.c, r)) <==> r <= pl { OverlayPhases(e.c, r); }
    forall u: nat {:trigger NoNews(e, init, u, body, {z})} | 0 < u <= pl ensures NoNews(e, init, u, body, {z}) {
      NoNewsBefore(e, init, u, body, {z});
    }
    KeptIff(e, init, source, Onion(e.query, paths[i], body), paths[i], body, z, pl, last,
            BftDeliver(s), BftHolds(c), IsFirst);
  }

  // ---- agreement when nobody fails ----

  lemma SignatureRecords(e: BftEnv, s: Agreement.Setting, c: Contribution, id: nat)
    requires BftSystem(e, s)
    ensures Records(e.impl, BftDeliver(s), HasSignature(c, id), SignAlone(id)(c), IsSecond)
    ensures Forwards(e.impl)
  {
    hide HandlePhase1, HandlePhase2;
    var deliver, kept, body := BftDeliver(s), HasSignature(c, id), SignAlone(id)(c);
    forall p ensures kept(deliver(p, Second, body)) {
      SignatureAdded(p.table, c, id);
      var n := p.(phase := AgreementPhase(Second));
      assert n.phase == Agreement.Agreement;
      assert deliver(p, Second, body) == Agreement.Receive(s, n, body);
      assert Agreement.Receive(s, n, body).table == HandlePhase1(p.table, body.m);
    }
    forall p, q, w | kept(p) ensures kept(deliver(p, q, w)) {
      SignaturesStay(s, p.(phase := AgreementPhase(q)), w, c, id);
    }
  }

  lemma SignatureAdded(t: Table, c: Contribution, id: nat)
    ensures var t' := HandlePhase1(t, SignedValue(c, map[id as int := Sig(id, c)])); c in t' && id in t'[c]
  {
    var sigs := map[id as int := Sig(id, c)];
    assert id as int in sigs;
    assert FirstKey(sigs) == id;
  }

  lemma SignaturesStay(s: Agreement.Setting, p: Agreement.Proxy, w: Agreement.Body, c: Contribution, id: int)
    requires c in p.table && id in p.table[c]
    ensures var q := Agreement.Receive(s, p, w); c in q.table && id in q.table[c]
  {
  }

  /** A signature sent at the end of shuffle along a path that ends within the agreement phase is collected. */
  lemma SignatureReachesProxy(e: BftEnv, init: BftNodes, s: Agreement.Setting, x: nat, c: Contribution, path: seq<nat>)
    requires Ready(e, init) && BftSystem(e, s) && x < e.n && |path| >= 1
    requires PathMessage(e.query, path, SignAlone(x)(c)) in Emitted(e, init, PhaseLength(e.c), x)
    requires EndsBy(x, path, e.n, PhaseLength(e.c) + 1, LastRound(e.c))
    ensures path[|path| - 1] < e.n
    ensures HasSignature(c, x)(StateAt(e, init, LastRound(e.c), path[|path| - 1]))
  {
    hide Held, EndsBy, StateAt, Emitted, Records, HandledBy, PhaseIn, SignAlone, HasSignature;
    var m, body := PathMessage(e.query, path, SignAlone(x)(c)), SignAlone(x)(c);
    EmittedIsHeld(e, init, PhaseLength(e.c), x, m);
    SignatureRecords(e, s, c, x);
    var r, from := PathIsRealised(e, init, x, path, PhaseLength(e.c) + 1, LastRound(e.c), m, body);
    OverlayPhases(e.c, r);
    HandledIsKept(e, init, r, from, path[|path| - 1], LastRound(e.c), BftDeliver(s), HasSignature(c, x), body, IsSecond);
  }

  /** x signs c for z at the end of shuffle, and the path to z ends in time. */
  ghost predicate SignsFor(e: BftEnv, init: BftNodes, x: nat, c: Contribution, z: nat)
    requires Ready(e, init)
  {
    && x < e.n
    && exists path: seq<nat> ::
         && |path| >= 1 && path[|path| - 1] == z
         && PathMessage(e.query, path, SignAlone(x)(c)) in Emitted(e, init, PhaseLength(e.c), x)
         && EndsBy(x, path, e.n, PhaseLength(e.c) + 1, LastRound(e.c))
  }

  /**
   * When nobody fails, a contribution signed for a proxy by log2n + 1 others in time is accepted there at the end of
   * the overlay.
   */
  lemma SignedIsAccepted(e: BftEnv, init: BftNodes, s: Agreement.Setting, c: Contribution, z: nat, signers: set<nat>)
    requires Ready(e, init) && BftSystem(e, s) && z < e.n && |signers| >= s.log2n + 1
    requires forall x :: x in signers ==> SignsFor(e, init, x, c, z)
    ensures c in LockNode(e, init, LastRound(e.c) + 1, z).proto.accepted
  {
    hide StateAt, Emitted, LockNode, EndsBy;
    var p := StateAt(e, init, LastRound(e.c), z);
    forall x | x in signers ensures HasSignature(c, x)(p) {
      var path: seq<nat> :| |path| >= 1 && path[|path| - 1] == z
                            && PathMessage(e.query, path, SignAlone(x)(c)) in Emitted(e, init, PhaseLength(e.c), x)
                            && EndsBy(x, path, e.n, PhaseLength(e.c) + 1, LastRound(e.c));
      SignatureReachesProxy(e, init, s, x, c, path);
    }
    var some :| some in signers;
    assert c in p.table;
    KeysAtLeast(signers, p.table[c].Keys);
    FinalState(e, init, s, z);
  }

  // ---- packages ----

  function HasPackage(a: AgreementValue): Agreement.Proxy -> bool {
    (p: Agreement.Proxy) =>
      a.signed.value in p.table && forall k :: k in Surviving(a) ==> k in p.table[a.signed.value]
  }

  lemma PackageRecords(e: BftEnv, s: Agreement.Setting, a: AgreementValue)
    requires BftSystem(e, s) && PackageVerifies(a) && ValidCount(a) >= s.log2n
    ensures Records(e.impl, BftDeliver(s), HasPackage(a), Agreement.Accept(a), IsSecond)
    ensures Forwards(e.impl)
  {
    hide HandlePhase1, HandlePhase2, Surviving, PackageVerifies;
    var deliver, kept, body := BftDeliver(s), HasPackage(a), Agreement.Accept(a);
    forall p ensures kept(deliver(p, Second, body)) {
      PackageAdded(p.table, a, s.log2n);
      var n := p.(phase := AgreementPhase(Second));
      assert n.phase == Agreement.Agreement;
      assert deliver(p, Second, body) == Agreement.Receive(s, n, body);
      assert Agreement.Receive(s, n, body).table == HandlePhase2(p.table, a, s.log2n);
    }
    forall p, q, w | kept(p) ensures kept(deliver(p, q, w)) {
      ValueStays(s, p.(phase := AgreementPhase(q)), w, a.signed.value);
      forall k | k in Surviving(a) ensures k in deliver(p, q, w).table[a.signed.value] {
        SignaturesStay(s, p.(phase := AgreementPhase(q)), w, a.signed.value, k);
      }
    }
  }

  lemma PackageAdded(t: Table, a: AgreementValue, log2n: nat)
    requires PackageVerifies(a) && ValidCount(a) >= log2n
    ensures var t' := HandlePhase2(t, a, log2n);
            a.signed.value in t' && forall k :: k in Surviving(a) ==> k in t'[a.signed.value]
  {
    hide Surviving, ValidCount, PackageVerifies;
  }

  lemma ValueStays(s: Agreement.Setting, p: Agreement.Proxy, w: Agreement.Body, c: Contribution)
    requires c in p.table
    ensures c in Agreement.Receive(s, p, w).table
  {
  }

  /** A package sent at the end of phase 1 along a path that ends within the overlay is merged at its end. */
  lemma PackageReachesProxy(e: BftEnv, init: BftNodes, s: Agreement.Setting, x: nat, a: AgreementValue, path: seq<nat>)
    requires Ready(e, init) && BftSystem(e, s) && x < e.n && |path| >= 1
    requires PackageVerifies(a) && ValidCount(a) >= s.log2n
    requires PathMessage(e.query, path, Agreement.Accept(a)) in Emitted(e, init, 2 * PhaseLength(e.c), x)
    requires EndsBy(x, path, e.n, 2 * PhaseLength(e.c) + 1, LastRound(e.c))
    ensures path[|path| - 1] < e.n && HasPackage(a)(StateAt(e, init, LastRound(e.c), path[|path| - 1]))
  {
    hide Held, EndsBy, StateAt, Emitted, Records, HandledBy, PhaseIn, ValidCount, PackageVerifies, HasPackage;
    var m, body, t := PathMessage(e.query, path, Agreement.Accept(a)), Agreement.Accept(a), 2 * PhaseLength(e.c);
    assert t < LastRound(e.c);
    EmittedIsHeld(e, init, t, x, m);
    PackageRecords(e, s, a);
    var r, from := PathIsRealised(e, init, x, path, t + 1, LastRound(e.c), m, body);
    OverlayPhases(e.c, r);
    HandledIsKept(e, init, r, from, path[|path| - 1], LastRound(e.c), BftDeliver(s), HasPackage(a), body, IsSecond);
  }

  function PackageOf(x: nat, v: Contribution, sigs: map<int, Sig>): AgreementValue {
    AgreementValue(SignedValue(v, sigs), x, PackageSig(x, SignedValue(v, sigs)))
  }

  /**
   * Relay in the whole system: when nobody fails, a value with log2n + 1 verified signatures at the end of phase 1 is
   * accepted wherever its package can be taken by the end of the overlay.
   */
  lemma PackageIsAccepted(e: BftEnv, init: BftNodes, s: Agreement.Setting, x: nat, v: Contribution, sigs: map<int, Sig>,
                          path: seq<nat>)
    requires Ready(e, init) && BftSystem(e, s) && x < e.n && |path| >= 1
    requires EntryVerified(v, sigs) && |sigs| >= s.log2n + 1
    requires PathMessage(e.query, path, Agreement.Accept(PackageOf(x, v, sigs))) in Emitted(e, init, 2 * PhaseLength(e.c), x)
    requires EndsBy(x, path, e.n, 2 * PhaseLength(e.c) + 1, LastRound(e.c))
    ensures path[|path| - 1] < e.n && v in LockNode(e, init, LastRound(e.c) + 1, path[|path| - 1]).proto.accepted
  {
    hide EndsBy, StateAt, Emitted, LockNode, HandlePhase2, Ready, BftSystem, PathMessage;
    VerifiedPackageAccepted(map[], v, sigs, x, s.log2n);
    PackageReachesProxy(e, init, s, x, PackageOf(x, v, sigs), path);
    var z := path[|path| - 1];
    KeysIncluded(sigs, StateAt(e, init, LastRound(e.c), z).table[v]);
    FinalState(e, init, s, z);
  }

  lemma KeysIncluded(a: map<int, Sig>, b: map<int, Sig>)
    requires forall k :: k in a ==> k in b
    ensures |a| <= |b|
  {
    assert forall k :: k in a.Keys ==> k in b.Keys;
    assert b.Keys == a.Keys + (b.Keys - a.Keys);
    assert |a.Keys| == |a| && |b.Keys| == |b|;
  }

  /** At the end of shuffle every value is signed and sent to the other proxies; see Multicasts.MulticastsReach. */
  ghost predicate BftMulticasts(e: BftEnv) {
    forall p: Agreement.Proxy, id: nat, a: PhaseState, b: PhaseState, r, v, z: nat ::
      a.phase == First && b.phase == Second && v in p.proxyValues && z in v.tuple.proxies && z != id ==>
        SendsTo(e.impl.roundEnd(p, id, a, b, r).1, e.query, SignAlone(id)(v), z)
  }

  /** The paths of x's signatures end within the agreement phase. */
  ghost predicate InTime(e: BftEnv, init: BftNodes, x: nat)
    requires Ready(e, init) && x < e.n
  {
    forall path: seq<nat>, b :: |path| >= 1 && PathMessage(e.query, path, b) in Emitted(e, init, PhaseLength(e.c), x) ==>
      EndsBy(x, path, e.n, PhaseLength(e.c) + 1, LastRound(e.c))
  }

  /**
   * When nobody fails and the planned paths end within their phases, every proxy of a signed contribution accepts it,
   * provided it has log2n + 1 other proxies.
   */
  lemma BftContributionAccepted(e: BftEnv, init: BftNodes, s: Agreement.Setting, source: nat, c: Contribution,
                                paths: seq<seq<nat>>, i: nat)
    requires Ready(e, init) && BftSystem(e, s) && BftMulticasts(e) && c.tuple.query == e.query && OwnerVerifies(c)
    requires SentToProxies(e, init, source, c, Agreement.Contributed(c), paths) && i < |paths| && |paths| >= e.c.l + 2
    requires forall j :: 0 <= j < e.n ==> c !in init[j].proto.proxyValues
    requires forall j :: 0 <= j < |paths| ==> EndsBy(source, paths[j], e.n, 0, PhaseLength(e.c))
    requires forall x :: 0 <= x < e.n ==> InTime(e, init, x)
    ensures c.tuple.proxies[i] < e.n
    ensures c in LockNode(e, init, LastRound(e.c) + 1, c.tuple.proxies[i]).proto.accepted
  {
    hide StateAt, EndsBy, LockNode, LaunchedAlone, PathFinder.PlannedUpTo, BftMulticasts, SignsFor;
    var pl, z := PhaseLength(e.c), c.tuple.proxies[i];
    BftShuffleDelivers(e, init, s, source, c, paths, i, pl);
    var signers := set j | 0 <= j < |c.tuple.proxies| && j != i :: c.tuple.proxies[j];
    DistinctCount(c.tuple.proxies, i);
    forall x | x in signers ensures SignsFor(e, init, x, c, z) {
      var j :| 0 <= j < |c.tuple.proxies| && j != i && x == c.tuple.proxies[j];
      BftShuffleDelivers(e, init, s, source, c, paths, j, pl);
      ValueIsSigned(e, init, x, c, z);
    }
    SignedIsAccepted(e, init, s, c, z, signers);
  }

  lemma ValueIsSigned(e: BftEnv, init: BftNodes, x: nat, c: Contribution, z: nat)
    requires Ready(e, init) && e.c.variant == BFT && BftMulticasts(e) && x < e.n && InTime(e, init, x)
    requires c in StateAt(e, init, PhaseLength(e.c), x).proxyValues && z in c.tuple.proxies && z != x
    ensures SignsFor(e, init, x, c, z)
  {
    hide StateAt, EndsBy, SignAlone, PhaseAt, Ready;
    var pl := PhaseLength(e.c);
    PhaseSchedule(e.c, pl - 1);
    PhaseSchedule(e.c, pl);
    assert SendsTo(Emitted(e, init, pl, x), e.query, SignAlone(x)(c), z);
  }

  lemma {:induction false} DistinctCount(xs: seq<nat>, i: nat)
    requires i < |xs| && forall j, k :: 0 <= j < k < |xs| ==> xs[j] != xs[k]
    ensures |set j | 0 <= j < |xs| && j != i :: xs[j]| == |xs| - 1
  {
    AllCount(xs);
    assert (set j | 0 <= j < |xs| && j != i :: xs[j]) == (set j | 0 <= j < |xs| :: xs[j]) - {xs[i]};
  }

  lemma {:induction false} AllCount(xs: seq<nat>)
    requires forall j, k :: 0 <= j < k < |xs| ==> xs[j] != xs[k]
    ensures |set j | 0 <= j < |xs| :: xs[j]| == |xs|
  {
    if xs != [] {
      var l := |xs| - 1;
      AllCount(xs[..l]);
      assert (set j | 0 <= j < |xs| :: xs[j]) == (set j | 0 <= j < l :: xs[..l][j]) + {xs[l]};
    }
  }

  lemma {:induction false} KeysAtLeast(xs: set<nat>, keys: set<int>)
    requires forall x :: x in xs ==> x as int in keys
    ensures |keys| >= |xs|
  {
    if xs != {} {
      var x :| x in xs;
      KeysAtLeast(xs - {x}, keys - {x as int});
    }
  }

  lemma FinalState(e: BftEnv, init: BftNodes, s: Agreement.Setting, z: nat)
    requires Ready(e, init) && BftSystem(e, s) && z < e.n
    ensures LockNode(e, init, LastRound(e.c) + 1, z).proto.accepted
            == AcceptedValues(StateAt(e, init, LastRound(e.c), z).table, s.log2n)
  {
    hide Inbound, AbsorbAll, PhaseAt, EndRoundPhase, Fresh, LockNode, AcceptedValues, BftSystem;
    var l := LastRound(e.c);
    var nd, ts := LockNode(e, init, l, z), Inbound(e, init, l, z);
    LockPhase(e, init, l, z);
    LockRound(e, init, l, z);
    AbsorbAllKeeps(e, nd, ts);
    LockUnfold(e, init, l, z);
    PhaseSchedule(e.c, l - 1);
    PhaseSchedule(e.c, l);
    PhaseStep(e.c, l);
    LastPhaseEnd(e, s, AbsorbAll(e, nd, ts));
  }

  lemma LastPhaseEnd(e: BftEnv, s: Agreement.Setting, nd: Node<Agreement.Proxy, Agreement.Body>)
    requires BftSystem(e, s) && Wf(e, nd)
    requires nd.ps.phase == Second && EndRoundPhase(e.c, nd.ps, nd.round).phase == Aggregate
    ensures Advance(e, nd).proto.accepted == AcceptedValues(nd.proto.table, s.log2n)
  {
    hide EndRoundPhase, AcceptedValues, NextRound, Wf;
    EndPhaseWf(e, nd);
  }

  lemma PhaseStep(c: Config, k: nat)
    ensures PhaseAt(c, k) == EndRoundPhase(c, PhaseAt(c, k - 1), k)
  {
  }

  // ---- the planner's limit ----

  /**
   * How the planner's limit compares with the phases, with the code's choices of FAILURES_TOLERATED and of the number
   * of proxies: it fits the whole CT overlay exactly up to 32 meters, and never fits the BFT shuffle phase.
   */
  lemma PlannerLimits(n: nat)
    requires n >= 2
    ensures var l := CeilLog2(n);
            && (PathFinder.RoundsLimit(n, l + 1) <= LastRound(Config(CT, l, l)) + 1 <==> n <= 32)
            && PathFinder.RoundsLimit(n, 2 * l + 1) > PhaseLength(Config(BFT, l, l)) + 1
  {
    hide PathFinder.RoundsLimit, LastRound, PhaseLength, CeilLog2;
    FiveBits(n);
    LimitsAt(CeilLog2(n), n);
  }

  lemma FiveBits(n: nat)
    requires n >= 2
    ensures CeilLog2(n) >= 1 && (CeilLog2(n) <= 5 <==> n <= 32)
  {
    var l := CeilLog2(n);
    hide CeilLog2;
    assert Pow2(5) == 32 by { assert Pow2(3) == 8; }
    if l <= 5 { Pow2Monotone(l, 5); } else { Pow2Monotone(5, l - 1); }
  }

  lemma LimitsAt(l: nat, n: nat)
    requires n >= 1 && l == CeilLog2(n) >= 1
    ensures PathFinder.RoundsLimit(n, l + 1) <= LastRound(Config(CT, l, l)) + 1 <==> l <= 5
    ensures PathFinder.RoundsLimit(n, 2 * l + 1) > PhaseLength(Config(BFT, l, l)) + 1
  {
    hide CeilLog2, Pow2;
    Products(l);
    Squares(l);
  }

  lemma Products(l: nat)
    ensures l * (l + 1) == l * l + l && l * (2 * l + 1) == l * l + l * l + l
  {
    Distribute(l, 1, l);
    Distribute(2 * l, 1, l);
    Distribute(l, l, l);
  }

  lemma Squares(l: nat)
    requires l >= 1
    ensures l * l >= l && (l * l <= 5 * l <==> l <= 5)
  {
    MulAtLeast(l, l);
    if l <= 5 {
      Distribute(5, l, l);
      assert (5 - l) * l >= 0;
    } else {
      MulAtLeast(l - 5, l);
      Distribute(l, 5, l);
    }
  }
}
