/** How far a flooded message has spread, and that two floods bring a contribution to its proxy. */
module Flood {
  import opened Arith
  import opened Overlay
  import opened Phases
  import opened RoundEngine
  import opened AsyncRefinement
  import opened Routing
  import opened Hft
  import opened Crusader
  import Coverage

  /** HFT sends only flooded messages, without paths; every layer of an onion is one. */
  ghost predicate IsFlood<V>(m: Message<V>) {
    m.flood && m.remaining == [] && m.body != Null && (m.body.Layer? ==> IsFlood(m.body.inner))
  }

  ghost predicate AllFloods<V>(ms: seq<Message<V>>) {
    forall m :: m in ms ==> IsFlood(m)
  }

  ghost predicate Clean(nd: HftNode) {
    && nd.waiting == [] && nd.outgoing == []
    && AllFloods(nd.proto.current) && AllFloods(nd.proto.relay)
  }

  /** An HFT system about to run a query: each node's own floods are in its current set. */
  ghost predicate HftReady(e: HftEnv, init: seq<HftNode>) {
    && Ready(e, init) && e.c.variant == HFT && e.impl == HftImpl(e.n, e.query)
    && forall j :: 0 <= j < e.n ==> Clean(init[j]) && init[j].proto.relay == []
  }

  // ---- one node through one round ----

  lemma {:induction false} StillFloodingMembers(ms: seq<Message<Contribution>>, target: nat)
    ensures forall m :: m in StillFlooding(ms, target) <==> m in ms && m.dest != target
  {
    if ms != [] {
      StillFloodingMembers(ms[1..], target);
      assert ms == [ms[0]] + ms[1..];
    }
  }

  ghost predicate FloodBatch<V>(ts: seq<Transport<V>>) {
    forall t :: t in ts ==> (t.message.body == Null && t.message.remaining == []) || IsFlood(t.message)
  }

  lemma ReceiveFlood(p: HftState, id: nat, ph: Phase, m: Message<Contribution>, query: int)
    requires AllFloods(p.current) && AllFloods(p.relay) && (m.body == Null || IsFlood(m))
    ensures var q := Receive(p, id, ph, m, query).0;
            && AllFloods(q.current) && AllFloods(q.relay) && Receive(p, id, ph, m, query).1 == []
            && (forall x :: x in q.current <==> x in p.current || (x == m && m.body != Null && m.dest != id))
            && (forall x :: x in p.relay ==> x in q.relay)
            && (forall v :: v in p.proxyValues ==> v in q.proxyValues)
            && (m.dest == id && ph == First && m.body.Layer? ==> m.body.inner in q.relay)
            && (m.dest == id && ph == Second && m.body.Value? && m.body.value.tuple.query == query ==>
                   m.body.value in q.proxyValues)
  {
  }

  lemma AbsorbFlood(e: HftEnv, nd: HftNode, t: Transport<Contribution>)
    requires e.impl == HftImpl(e.n, e.query) && Clean(nd) && FloodBatch([t])
    ensures var a := Absorb(e, nd, t);
            && Clean(a) && a.id == nd.id && a.ps == nd.ps
            && a.proto == Receive(nd.proto, nd.id, nd.ps.phase, t.message, e.query).0
  {
  }

  lemma {:induction false} AbsorbAllFloods(e: HftEnv, nd: HftNode, ts: seq<Transport<Contribution>>)
    requires e.impl == HftImpl(e.n, e.query) && Clean(nd) && FloodBatch(ts)
    ensures var a := AbsorbAll(e, nd, ts);
            && Clean(a) && a.id == nd.id && a.ps == nd.ps
            && (forall m :: m in a.proto.current <==>
                  m in nd.proto.current || (m in Payloads(ts) && m.body != Null && m.dest != nd.id))
            && (forall m :: m in nd.proto.relay ==> m in a.proto.relay)
            && (forall v :: v in nd.proto.proxyValues ==> v in a.proto.proxyValues)
    decreases |ts|
  {
    hide Absorb, IsFlood, Receive, AllFloods;
    if ts == [] {
      assert Payloads(ts) == [];
    } else {
      assert ts[0] in ts;
      AbsorbFlood(e, nd, ts[0]);
      ReceiveFlood(nd.proto, nd.id, nd.ps.phase, ts[0].message, e.query);
      AbsorbAllFloods(e, Absorb(e, nd, ts[0]), ts[1..]);
      assert Payloads(ts) == [ts[0].message] + Payloads(ts[1..]);
    }
  }

  /** A message for this node that arrives in the right phase leaves its content behind. */
  lemma {:induction false} AbsorbAllKeepsContent(e: HftEnv, nd: HftNode, ts: seq<Transport<Contribution>>,
                                                    k: nat)
    requires e.impl == HftImpl(e.n, e.query) && Clean(nd) && FloodBatch(ts) && k < |ts| && ts[k].message.dest == nd.id
    ensures var m, a := ts[k].message, AbsorbAll(e, nd, ts);
            && (nd.ps.phase == First && m.body.Layer? ==> m.body.inner in a.proto.relay)
            && (nd.ps.phase == Second && m.body.Value? && m.body.value.tuple.query == e.query ==>
                  m.body.value in a.proto.proxyValues)
    decreases |ts|
  {
    hide Absorb, IsFlood, Receive, AllFloods;
    assert ts[0] in ts;
    AbsorbFlood(e, nd, ts[0]);
    ReceiveFlood(nd.proto, nd.id, nd.ps.phase, ts[0].message, e.query);
    if k == 0 {
      AbsorbAllFloods(e, Absorb(e, nd, ts[0]), ts[1..]);
    } else {
      AbsorbAllKeepsContent(e, Absorb(e, nd, ts[0]), ts[1..], k - 1);
    }
  }

  lemma EndPhaseFloods(e: HftEnv, nd: HftNode)
    requires e.impl == HftImpl(e.n, e.query) && Clean(nd) && nd.id < e.n && nd.round >= -1
    requires InOverlay(nd.ps) && InOverlay(EndRoundPhase(e.c, nd.ps, nd.round))
    ensures var a := EndPhase(e, nd);
            var q := ChangePhase(nd.proto, nd.ps, EndRoundPhase(e.c, nd.ps, nd.round));
            && a.waiting == [] && a.outgoing == q.current && AllFloods(a.outgoing)
            && a.proto.current == StillFlooding(q.current, Target(nd.id, nd.round + 1, e.n))
            && a.proto.relay == q.relay && AllFloods(a.proto.relay)
            && a.proto.proxyValues == nd.proto.proxyValues
  {
  }

  // ---- the whole system ----

  /** Node x just before its round-r batch: only floods, all of them in the outgoing list. */
  ghost predicate CleanBatch(e: HftEnv, p: HftNode, r: nat, x: nat)
    requires x < e.n
  {
    && p.waiting == [] && AllFloods(p.outgoing) && AllFloods(p.proto.relay)
    && p.proto.current == StillFlooding(p.outgoing, Target(x, r, e.n))
  }

  lemma {:induction false} SelectFloods<V>(ms: seq<Message<V>>, target: nat)
    requires AllFloods(ms)
    ensures Select(ms, target, true) == ms && Hold(ms, target, true) == []
  {
    if ms != [] {
      assert ms[0] in ms;
      SelectFloods(ms[1..], target);
      assert ms == [ms[0]] + ms[1..];
    }
  }

  lemma NoSelect<V>(target: nat, floods: bool)
    ensures Select<V>([], target, floods) == [] && Hold<V>([], target, floods) == []
  {
  }

  /** A clean batch sends every outgoing flood, and a dummy message only if there is none. */
  lemma CleanSend(e: HftEnv, init: seq<HftNode>, r: nat, x: nat)
    requires Ready(e, init) && r <= LastRound(e.c) && x < e.n && CleanBatch(e, PreBatch(e, init, r, x), r, x)
    ensures var p, nd := PreBatch(e, init, r, x), LockNode(e, init, r, x);
            && r < |nd.sent|
            && nd.waiting == [] && nd.outgoing == [] && nd.proto == p.proto && FloodBatch(nd.sent[r])
            && (forall m :: m in Payloads(nd.sent[r]) && m.body != Null <==> m in p.outgoing)
  {
    hide LockNode, PreBatch, LockInv, Target, Select, Hold, StillFlooding, IsFlood, Wf;
    var p, target := PreBatch(e, init, r, x), Target(x, r, e.n);
    PreBatchSends(e, init, r, x);
    SelectFloods(p.outgoing, target);
    NoSelect<Contribution>(target, false);
    var ms := Select(p.waiting, target, false) + Select(p.outgoing, target, true);
    assert ms == p.outgoing;
    SentIsBatch(e, init, r, x, ms);
    var ts := LockNode(e, init, r, x).sent[r];
    if ms == [] {
      assert Payloads(ts) == [Message(e.query, target, false, [], Null)];
    } else {
      assert Payloads(ts) == ms;
      FloodsHaveBodies(ms);
    }
    FloodsOnly(ts, ms, target, e.query);
  }

  lemma FloodsOnly<V>(ts: seq<Transport<V>>, ms: seq<Message<V>>, target: nat, query: int)
    requires Payloads(ts) == (if ms == [] then [Message(query, target, false, [], Null)] else ms) && AllFloods(ms)
    ensures FloodBatch(ts)
  {
  }

  lemma FloodsHaveBodies<V>(ms: seq<Message<V>>)
    requires AllFloods(ms)
    ensures forall m :: m in ms ==> m.body != Null
  {
  }

  /** Between two rounds of the same phase the current set becomes the next outgoing list. */
  lemma CleanNext(e: HftEnv, init: seq<HftNode>, r: nat, x: nat)
    requires HftReady(e, init) && r < LastRound(e.c) && x < e.n
    requires Clean(LockNode(e, init, r, x)) && FloodBatch(Inbound(e, init, r, x))
    ensures CleanBatch(e, PreBatch(e, init, r + 1, x), r + 1, x)
    ensures var a := AbsorbAll(e, LockNode(e, init, r, x), Inbound(e, init, r, x));
            PreBatch(e, init, r + 1, x).outgoing ==
            ChangePhase(a.proto, PhaseAt(e.c, r - 1), PhaseAt(e.c, r)).current
    ensures var a := AbsorbAll(e, LockNode(e, init, r, x), Inbound(e, init, r, x));
            && PreBatch(e, init, r + 1, x).proto.relay == ChangePhase(a.proto, PhaseAt(e.c, r - 1), PhaseAt(e.c, r)).relay
            && PreBatch(e, init, r + 1, x).proto.proxyValues == a.proto.proxyValues
  {
    hide LockNode, Inbound, LockInv, Absorb, AbsorbAll, EndPhase, Target, Clean, IsFlood, EndRoundPhase, ChangePhase;
    var nd, ts := LockNode(e, init, r, x), Inbound(e, init, r, x);
    RoundDoneShape(e, nd, ts, x, r);
    AbsorbAllFloods(e, nd, ts);
    PhaseSchedule(e.c, r);
    PhaseSchedule(e.c, r - 1);
    EndPhaseFloods(e, AbsorbAll(e, nd, ts));
  }

  lemma CleanFirst(e: HftEnv, init: seq<HftNode>, x: nat)
    requires HftReady(e, init) && x < e.n
    ensures CleanBatch(e, PreBatch(e, init, 0, x), 0, x)
    ensures PreBatch(e, init, 0, x).outgoing == init[x].proto.current && PreBatch(e, init, 0, x).proto.relay == []
    ensures PreBatch(e, init, 0, x).proto.proxyValues == init[x].proto.proxyValues
  {
    hide Target, IsFlood;
    PhaseSchedule(e.c, -1);
    assert Fresh(init[x], e.n);
    EndPhaseFloods(e, init[x]);
  }

  lemma {:induction false} AlwaysClean(e: HftEnv, init: seq<HftNode>, r: nat, x: nat)
    requires HftReady(e, init) && r <= LastRound(e.c) && x < e.n
    ensures CleanBatch(e, PreBatch(e, init, r, x), r, x)
    ensures Clean(LockNode(e, init, r, x)) && FloodBatch(Inbound(e, init, r, x))
    decreases r, 1
  {
    hide LockNode, PreBatch, LockInv, Inbound, Target, Fresh;
    var y := Predecessor(x, r, e.n);
    CleanBatchAt(e, init, r, x);
    CleanBatchAt(e, init, r, y);
    CleanSend(e, init, r, x);
    CleanSend(e, init, r, y);
    InboundIsSent(e, init, r, x);
    StillFloods(e, PreBatch(e, init, r, x), r, x);
  }

  lemma StillFloods(e: HftEnv, p: HftNode, r: nat, x: nat)
    requires x < e.n && CleanBatch(e, p, r, x)
    ensures AllFloods(p.proto.current)
  {
    StillFloodingMembers(p.outgoing, Target(x, r, e.n));
  }

  lemma InboundIsSent<P, V>(e: Env<P, V>, init: seq<Node<P, V>>, r: nat, x: nat)
    requires Ready(e, init) && r <= LastRound(e.c) && x < e.n
    ensures var y := Predecessor(x, r, e.n);
            r < |LockNode(e, init, r, y).sent| && Inbound(e, init, r, x) == LockNode(e, init, r, y).sent[r]
  {
  }

  lemma {:induction false} CleanBatchAt(e: HftEnv, init: seq<HftNode>, r: nat, x: nat)
    requires HftReady(e, init) && r <= LastRound(e.c) && x < e.n
    ensures CleanBatch(e, PreBatch(e, init, r, x), r, x)
    decreases r, 0
  {
    hide LockNode, PreBatch, LockInv, Inbound, CleanBatch, Fresh;
    if r == 0 {
      CleanFirst(e, init, x);
    } else {
      AlwaysClean(e, init, r - 1, x);
      CleanNext(e, init, r - 1, x);
    }
  }

  // ---- the spread of one message ----

  ghost predicate Sends(e: HftEnv, init: seq<HftNode>, r: nat, x: nat, m: Message<Contribution>)
    requires Ready(e, init) && r <= LastRound(e.c) && x < e.n
  {
    m in PreBatch(e, init, r, x).outgoing
  }

  /** The destination receives m in round r. */
  ghost predicate Hits(e: HftEnv, init: seq<HftNode>, r: nat, m: Message<Contribution>)
    requires Ready(e, init) && r <= LastRound(e.c) && m.dest < e.n
  {
    Sends(e, init, r, Predecessor(m.dest, r, e.n), m)
  }

  lemma ReceivesIff(e: HftEnv, init: seq<HftNode>, r: nat, x: nat, m: Message<Contribution>)
    requires HftReady(e, init) && r <= LastRound(e.c) && x < e.n && m.body != Null
    ensures m in Payloads(Inbound(e, init, r, x)) <==> Sends(e, init, r, Predecessor(x, r, e.n), m)
  {
    hide LockNode, PreBatch, LockInv, Inbound, StillFlooding, Predecessor, CleanBatch, FloodBatch;
    var y := Predecessor(x, r, e.n);
    AlwaysClean(e, init, r, y);
    CleanSend(e, init, r, y);
    InboundIsSent(e, init, r, x);
  }

  /** One round of flooding within a phase: senders go on until they reach the destination, receivers join in. */
  lemma FloodStep(e: HftEnv, init: seq<HftNode>, r: nat, x: nat, m: Message<Contribution>)
    requires HftReady(e, init) && r < LastRound(e.c) && x < e.n && m.body != Null
    requires PhaseAt(e.c, r - 1).phase == PhaseAt(e.c, r).phase
    ensures Sends(e, init, r + 1, x, m) <==>
              || (Sends(e, init, r, x, m) && Target(x, r, e.n) != m.dest)
              || (x != m.dest && Sends(e, init, r, Predecessor(x, r, e.n), m))
  {
    hide LockNode, PreBatch, LockInv, Inbound, StillFlooding, Predecessor, Target, Clean, AllFloods, FloodBatch;
    hide AbsorbAll, PhaseAt;
    var p, nd, ts := PreBatch(e, init, r, x), LockNode(e, init, r, x), Inbound(e, init, r, x);
    AlwaysClean(e, init, r, x);
    CleanNext(e, init, r, x);
    CleanSend(e, init, r, x);
    StillFloodingMembers(p.outgoing, Target(x, r, e.n));
    AbsorbAllFloods(e, nd, ts);
    ReceivesIff(e, init, r, x, m);
    assert nd.id == x by { LockId(e, init, r, x); }
    PhaseUnchanged(AbsorbAll(e, nd, ts).proto, PhaseAt(e.c, r - 1), PhaseAt(e.c, r));
  }

  lemma LockId<P, V>(e: Env<P, V>, init: seq<Node<P, V>>, r: nat, x: nat)
    requires Ready(e, init) && r <= LastRound(e.c) && x < e.n
    ensures LockNode(e, init, r, x).id == x && LockNode(e, init, r, x).ps == PhaseAt(e.c, r - 1)
  {
    hide LockNode, PhaseAt, BatchOk;
    assert LockInv(e, LockNode(e, init, r, x), x, r);
  }

  lemma PhaseUnchanged(p: HftState, before: PhaseState, after: PhaseState)
    requires before.phase == after.phase
    ensures ChangePhase(p, before, after) == p
  {
  }

  /** The node 2^s * d places after src. */
  function Place(src: nat, s: nat, d: nat, n: nat): (r: nat)
    requires n > 0
    ensures r < n
  {
    (src + Pow2(s) * d) % n
  }

  lemma PlaceAdvances(src: nat, s: nat, d: nat, k: nat, n: nat)
    requires n > 0
    ensures Target(Place(src, s, d, n), s + k, n) == Place(src, s, d + Pow2(k), n)
  {
    hide Target, Pow2;
    var a, p := src + Pow2(s) * d, Pow2(s + k);
    GossipFormulas(a % n, s + k, n);
    ModAdd(a, p, n);
    Pow2Add(s, k);
    Spread(Pow2(s), d, Pow2(k));
    assert a + p == src + Pow2(s) * (d + Pow2(k));
  }

  lemma Spread(a: int, b: int, c: int)
    ensures a * (b + c) == a * b + a * c
  {
  }

  ghost predicate Reached(src: nat, s: nat, k: nat, x: nat, n: nat)
    requires n > 0
  {
    exists d: nat :: d < Pow2(k) && Place(src, s, d, n) == x
  }

  lemma ReachedNext(src: nat, s: nat, k: nat, x: nat, n: nat)
    requires x < n
    ensures Reached(src, s, k + 1, x, n) <==>
              Reached(src, s, k, x, n) || Reached(src, s, k, Predecessor(x, s + k, n), n)
  {
    hide Place, Target;
    var y := Predecessor(x, s + k, n);
    if Reached(src, s, k, y, n) {
      var d: nat :| d < Pow2(k) && Place(src, s, d, n) == y;
      PlaceAdvances(src, s, d, k, n);
      GossipInverse(y, x, s + k, n);
      assert Place(src, s, d + Pow2(k), n) == x;
    }
    if Reached(src, s, k + 1, x, n) {
      var d: nat :| d < Pow2(k + 1) && Place(src, s, d, n) == x;
      if d >= Pow2(k) {
        var d' := d - Pow2(k);
        PlaceAdvances(src, s, d', k, n);
        GossipInverse(Place(src, s, d', n), x, s + k, n);
        assert Place(src, s, d', n) == y;
      }
    }
  }

  ghost predicate OnlyFrom(e: HftEnv, init: seq<HftNode>, s: nat, src: nat, m: Message<Contribution>)
    requires Ready(e, init) && s <= LastRound(e.c)
  {
    forall x: nat :: x < e.n ==> (Sends(e, init, s, x, m) <==> x == src)
  }

  /** Rounds s to s+k-1 are ended within one phase. */
  ghost predicate SamePhase(c: Config, s: nat, k: nat) {
    forall r: int :: s <= r < s + k ==> PhaseAt(c, r - 1).phase == PhaseAt(c, r).phase
  }

  /**
   * k rounds after src alone has started to flood m, and before its first delivery, the nodes that send
   * it are exactly those 2^s * d places after src with d < 2^k.
   */
  lemma {:induction false} FloodSpread(e: HftEnv, init: seq<HftNode>, s: nat, k: nat, src: nat,
                                          m: Message<Contribution>, x: nat)
    requires HftReady(e, init) && s + k <= LastRound(e.c) && src < e.n && x < e.n && m.dest < e.n && m.body != Null
    requires OnlyFrom(e, init, s, src, m) && SamePhase(e.c, s, k)
    requires forall r: nat :: s <= r < s + k ==> !Hits(e, init, r, m)
    ensures Sends(e, init, s + k, x, m) <==> Reached(src, s, k, x, e.n)
    decreases k
  {
    hide Sends, Reached, Target, Predecessor, Place, Ready;
    if k == 0 {
      OnlyStart(src, s, x, e.n);
    } else {
      var r := s + k - 1;
      var y := Predecessor(x, r, e.n);
      assert PhaseAt(e.c, r - 1).phase == PhaseAt(e.c, r).phase;
      FloodSpread(e, init, s, k - 1, src, m, x);
      FloodSpread(e, init, s, k - 1, src, m, y);
      FloodStep(e, init, r, x, m);
      ReachedNext(src, s, k - 1, x, e.n);
      assert !Hits(e, init, r, m);
      GossipInverse(x, m.dest, r, e.n);
      GossipInverse(y, x, r, e.n);
      if Target(x, r, e.n) == m.dest {
        assert Predecessor(m.dest, r, e.n) == x;
      }
    }
  }

  lemma OnlyStart(src: nat, s: nat, x: nat, n: nat)
    requires src < n && x < n
    ensures Reached(src, s, 0, x, n) <==> x == src
  {
    ModUnique(src, n, 0, src);
    assert Pow2(s) * 0 == 0;
    assert Place(src, s, 0, n) == src;
  }

  // ---- reaching the destination ----

  lemma PlacesDiffer(src: nat, s: nat, c: nat, d: nat, n: nat)
    requires n % 2 == 1 && c < d < n
    ensures Place(src, s, c, n) != Place(src, s, d, n)
  {
    if Place(src, s, c, n) == Place(src, s, d, n) {
      ModEqual(src + Pow2(s) * d, src + Pow2(s) * c, n);
      Spread(Pow2(s), d - c, c);
      CancelPow2(d - c, s, n);
      ModUnique(d - c, n, 0, d - c);
    }
  }

  ghost function Places(src: nat, s: nat, k: nat, n: nat): set<nat>
    requires n > 0
  {
    if k == 0 then {} else Places(src, s, k - 1, n) + {Place(src, s, k - 1, n)}
  }

  lemma {:induction false} PlacesSize(src: nat, s: nat, k: nat, n: nat)
    requires n % 2 == 1 && k <= n
    ensures |Places(src, s, k, n)| == k && Places(src, s, k, n) <= Coverage.Below(n)
    ensures forall x :: x in Places(src, s, k, n) ==> exists d: nat :: d < k && Place(src, s, d, n) == x
  {
    hide Place;
    if k > 0 {
      PlacesSize(src, s, k - 1, n);
      forall d: nat | d < k - 1 ensures Place(src, s, d, n) != Place(src, s, k - 1, n) {
        PlacesDiffer(src, s, d, k - 1, n);
      }
    }
  }

  /** For odd N, ceil(log2 N) doublings reach every node. */
  lemma EveryoneReached(src: nat, s: nat, k: nat, x: nat, n: nat)
    requires n % 2 == 1 && Pow2(k) >= n && x < n
    ensures Reached(src, s, k, x, n)
  {
    PlacesSize(src, s, n, n);
    Coverage.SubsetOfEqualSize(Places(src, s, n, n), Coverage.Below(n));
    assert x in Places(src, s, n, n);
  }

  ghost predicate HitWithin(e: HftEnv, init: seq<HftNode>, s: nat, k: nat, m: Message<Contribution>)
    requires Ready(e, init) && s + k <= LastRound(e.c) + 1 && m.dest < e.n
  {
    exists r: nat :: s <= r < s + k && Hits(e, init, r, m)
  }

  /** What a flood would have reached after k rounds it has reached, unless it was delivered on the way. */
  lemma {:induction false} FloodAtLeast(e: HftEnv, init: seq<HftNode>, s: nat, k: nat, src: nat,
                                           m: Message<Contribution>, x: nat)
    requires HftReady(e, init) && s + k <= LastRound(e.c)
    requires src < e.n && x < e.n && m.dest < e.n && m.body != Null
    requires Sends(e, init, s, src, m) && SamePhase(e.c, s, k) && Reached(src, s, k, x, e.n)
    ensures HitWithin(e, init, s, k, m) || ((x != m.dest || src == m.dest) && Sends(e, init, s + k, x, m))
    decreases k
  {
    hide Sends, Reached, Target, Predecessor, Place, Ready, PhaseAt;
    if k == 0 {
      OnlyStart(src, s, x, e.n);
    } else {
      var r := s + k - 1;
      var y := Predecessor(x, r, e.n);
      ReachedNext(src, s, k - 1, x, e.n);
      var z := if Reached(src, s, k - 1, x, e.n) then x else y;
      FloodAtLeast(e, init, s, k - 1, src, m, z);
      if !HitWithin(e, init, s, k - 1, m) {
        assert PhaseAt(e.c, r - 1).phase == PhaseAt(e.c, r).phase;
        FloodStep(e, init, r, x, m);
        GossipInverse(x, m.dest, r, e.n);
        assert Hits(e, init, r, m) || ((x != m.dest || src == m.dest) && Sends(e, init, s + k, x, m));
      }
    }
  }

  /** For odd N the node that would send to src in the last of ceil(log2 N) rounds has been reached before it. */
  lemma ReturnsToSource(src: nat, s: nat, k: nat, n: nat)
    requires src < n && n % 2 == 1 && n >= 3 && k >= 1 && Pow2(k - 1) < n <= Pow2(k)
    ensures Reached(src, s, k - 1, Predecessor(src, s + k - 1, n), n)
  {
    hide Target, Predecessor, Place;
    var p, q := Pow2(s), Pow2(k - 1);
    var d := n - q;
    Pow2Add(s, k - 1);
    assert src + p * d == (src - p * q) + p * n by { Spread(p, d, q); }
    ModShift(src - p * q, p, n);
    GossipFormulas(src, s + k - 1, n);
    assert Place(src, s, d, n) == Predecessor(src, s + k - 1, n) by { PlaceIs(src, s, d, n); }
    assert d < q;
  }

  lemma PlaceIs(src: nat, s: nat, d: nat, n: nat)
    requires n > 0
    ensures Place(src, s, d, n) == (src + Pow2(s) * d) % n
  {
  }

  /** A flood reaches any node, also its own source, within ceil(log2 N) rounds of one phase. */
  lemma FloodReaches(e: HftEnv, init: seq<HftNode>, s: nat, src: nat, m: Message<Contribution>)
    returns (r: nat)
    requires HftReady(e, init) && e.n >= 3 && e.n % 2 == 1 && s + CeilLog2(e.n) <= LastRound(e.c) + 1
    requires s <= LastRound(e.c) && SamePhase(e.c, s, CeilLog2(e.n) - 1)
    requires src < e.n && m.dest < e.n && m.body != Null && Sends(e, init, s, src, m)
    ensures s <= r < s + CeilLog2(e.n) && r <= LastRound(e.c) && Hits(e, init, r, m)
    ensures m in Payloads(Inbound(e, init, r, m.dest))
  {
    hide Sends, Reached, Predecessor, Place, Inbound, SamePhase, Ready;
    var k := CeilLog2(e.n);
    var last := s + k - 1;
    var y := Predecessor(m.dest, last, e.n);
    if src == m.dest {
      ReturnsToSource(src, s, k, e.n);
      FloodAtLeast(e, init, s, k - 1, src, m, y);
    } else {
      EveryoneReached(src, s, k, m.dest, e.n);
      ReachedNext(src, s, k - 1, m.dest, e.n);
      FloodAtLeast(e, init, s, k - 1, src, m, if Reached(src, s, k - 1, m.dest, e.n) then m.dest else y);
    }
    if HitWithin(e, init, s, k - 1, m) {
      r :| s <= r < s + (k - 1) && Hits(e, init, r, m);
    } else {
      r := last;
    }
    ReceivesIff(e, init, r, m.dest, m);
  }

  // ---- from the contributor through the relay to the proxy ----

  /** Node x's state at the end of round r, before the phase change. */
  ghost function Handled(e: HftEnv, init: seq<HftNode>, r: nat, x: nat): HftState
    requires Ready(e, init) && r <= LastRound(e.c) && x < e.n
  {
    AbsorbAll(e, LockNode(e, init, r, x), Inbound(e, init, r, x)).proto
  }

  lemma HandledNext(e: HftEnv, init: seq<HftNode>, r: nat, x: nat)
    requires HftReady(e, init) && r < LastRound(e.c) && x < e.n
    ensures var q := ChangePhase(Handled(e, init, r, x), PhaseAt(e.c, r - 1), PhaseAt(e.c, r));
            && (forall m :: m in q.relay ==> m in Handled(e, init, r + 1, x).relay)
            && (forall v :: v in Handled(e, init, r, x).proxyValues ==> v in Handled(e, init, r + 1, x).proxyValues)
            && (forall m :: m in q.current <==> Sends(e, init, r + 1, x, m))
  {
    hide LockNode, PreBatch, LockInv, Inbound, Target, Clean, AllFloods, FloodBatch, AbsorbAll, PhaseAt, ChangePhase;
    AlwaysClean(e, init, r, x);
    AlwaysClean(e, init, r + 1, x);
    CleanNext(e, init, r, x);
    CleanSend(e, init, r + 1, x);
    AbsorbAllFloods(e, LockNode(e, init, r + 1, x), Inbound(e, init, r + 1, x));
  }

  lemma {:induction false} ValuesStay(e: HftEnv, init: seq<HftNode>, r: nat, k: nat, x: nat, v: Contribution)
    requires HftReady(e, init) && r <= k <= LastRound(e.c) && x < e.n && v in Handled(e, init, r, x).proxyValues
    ensures v in Handled(e, init, k, x).proxyValues
    decreases k
  {
    hide Handled, Ready;
    if r < k {
      ValuesStay(e, init, r, k - 1, x, v);
      HandledNext(e, init, k - 1, x);
    }
  }

  lemma {:induction false} RelayStays(e: HftEnv, init: seq<HftNode>, r: nat, k: nat, x: nat,
                                         m: Message<Contribution>)
    requires HftReady(e, init) && r <= k <= LastRound(e.c) && k <= PhaseLength(e.c) && x < e.n
    requires m in Handled(e, init, r, x).relay
    ensures m in Handled(e, init, k, x).relay
    decreases k
  {
    hide Handled, Ready, PhaseAt;
    if r < k {
      RelayStays(e, init, r, k - 1, x, m);
      HandledNext(e, init, k - 1, x);
      PhaseSchedule(e.c, k - 1);
      PhaseSchedule(e.c, k - 2);
      PhaseUnchanged(Handled(e, init, k - 1, x), PhaseAt(e.c, k - 2), PhaseAt(e.c, k - 1));
    }
  }

  lemma HandledContent(e: HftEnv, init: seq<HftNode>, r: nat, m: Message<Contribution>)
    requires HftReady(e, init) && r <= LastRound(e.c) && m.dest < e.n && m in Payloads(Inbound(e, init, r, m.dest))
    ensures PhaseAt(e.c, r - 1).phase == First && m.body.Layer? ==> m.body.inner in Handled(e, init, r, m.dest).relay
    ensures PhaseAt(e.c, r - 1).phase == Second && m.body.Value? && m.body.value.tuple.query == e.query ==>
              m.body.value in Handled(e, init, r, m.dest).proxyValues
  {
    hide LockNode, LockInv, Inbound, Clean, FloodBatch, AbsorbAll, PhaseAt;
    var x := m.dest;
    AlwaysClean(e, init, r, x);
    LockId(e, init, r, x);
    var ts := Inbound(e, init, r, x);
    var k :| 0 <= k < |Payloads(ts)| && Payloads(ts)[k] == m;
    AbsorbAllKeepsContent(e, LockNode(e, init, r, x), ts, k);
  }

  lemma PhasesLast(e: HftEnv, s: nat, k: nat)
    requires e.c.variant == HFT && PhaseLength(e.c) > 0
    requires s + k <= PhaseLength(e.c) || (PhaseLength(e.c) < s && s + k <= LastRound(e.c))
    ensures SamePhase(e.c, s, k)
  {
    hide PhaseAt;
    forall r: int | s <= r < s + k ensures PhaseAt(e.c, r - 1).phase == PhaseAt(e.c, r).phase {
      PhaseSchedule(e.c, r);
      PhaseSchedule(e.c, r - 1);
    }
  }

  /** Relayed messages are flooded from the round after the scatter phase on. */
  lemma GatherStarts(e: HftEnv, init: seq<HftNode>, x: nat, m: Message<Contribution>)
    requires HftReady(e, init) && x < e.n && PhaseLength(e.c) > 0
    requires m in Handled(e, init, PhaseLength(e.c), x).relay
    ensures Sends(e, init, PhaseLength(e.c) + 1, x, m)
  {
    hide Handled, Ready, PhaseAt, Sends;
    var pl := PhaseLength(e.c);
    PhaseSchedule(e.c, pl - 1);
    PhaseSchedule(e.c, pl);
    HandledNext(e, init, pl, x);
    assert m in ChangePhase(Handled(e, init, pl, x), PhaseAt(e.c, pl - 1), PhaseAt(e.c, pl)).current;
  }

  /**
   * Both floods fit their phases: a contribution wrapped for a relay and a proxy is among the proxy's
   * values by the end of the last overlay round.
   */
  lemma ContributionReachesProxy(e: HftEnv, init: seq<HftNode>, src: nat, relay: nat,
                                    proxy: nat, v: Contribution)
    requires HftReady(e, init) && e.n >= 3 && e.n % 2 == 1 && e.c.l == CeilLog2(e.n)
    requires src < e.n && relay < e.n && proxy < e.n && v.tuple.query == e.query
    requires TwoLayers(e.query, relay, proxy, v) in init[src].proto.current
    ensures v in Handled(e, init, LastRound(e.c), proxy).proxyValues
  {
    hide Handled, Ready, PhaseAt, Sends, Hits, Inbound;
    var inner := Message(e.query, proxy, true, [], Value(v));
    var outer := TwoLayers(e.query, relay, proxy, v);
    var pl, l := PhaseLength(e.c), CeilLog2(e.n);
    assert l >= 1;
    CleanFirst(e, init, src);
    assert Sends(e, init, 0, src, outer) by { SendsFirst(e, init, src, outer); }
    PhasesLast(e, 0, l - 1);
    var r1 := FloodReaches(e, init, 0, src, outer);
    PhaseSchedule(e.c, r1 as int - 1);
    HandledContent(e, init, r1, outer);
    RelayStays(e, init, r1, pl, relay, inner);
    GatherStarts(e, init, relay, inner);
    PhasesLast(e, pl + 1, l - 1);
    var r2 := FloodReaches(e, init, pl + 1, relay, inner);
    PhaseSchedule(e.c, r2 as int - 1);
    HandledContent(e, init, r2, inner);
    ValuesStay(e, init, r2, LastRound(e.c), proxy, v);
  }

  lemma SendsFirst(e: HftEnv, init: seq<HftNode>, x: nat, m: Message<Contribution>)
    requires HftReady(e, init) && x < e.n && m in init[x].proto.current
    ensures Sends(e, init, 0, x, m)
  {
  }
}
