/**
 * Who handles a message, exactly: a message of which there is one copy is handled along its greedy walk and nowhere
 * else (the forwarding rule of src/ProtocolState_impl.h:190-271).
 */
module Forwarding {
  import opened Overlay
  import opened Phases
  import opened RoundEngine
  import opened AsyncRefinement
  import opened Routing
  import PathFinder

  /** v is inside m, on its way to or past one of zs. */
  predicate Brings<V(==)>(m: Message<V>, v: V, zs: set<nat>) {
    match m.body
    case Null => false
    case Value(w) => w == v && (m.dest in zs || exists k :: 0 <= k < |m.remaining| && m.remaining[k] in zs)
    case Layer(inner) => Brings(inner, v, zs)
  }

  predicate Valid(x: nat, hops: seq<nat>, n: nat) {
    x < n && forall k :: 0 <= k < |hops| ==> hops[k] < n
  }

  /** One round of the greedy rule: a message at w.0 that still has to visit w.1. */
  function NextPlace(w: (nat, seq<nat>), r: nat, n: nat): (w': (nat, seq<nat>))
    requires Valid(w.0, w.1, n)
    ensures Valid(w'.0, w'.1, n)
  {
    if w.1 != [] && Target(w.0, r, n) == w.1[0] then (w.1[0], w.1[1..]) else w
  }

  /** Where the greedy rule has the message at the start of round r, and the hops it still has to make. */
  function Walk(x: nat, hops: seq<nat>, t: nat, r: nat, n: nat): (w: (nat, seq<nat>))
    requires Valid(x, hops, n) && t <= r
    ensures Valid(w.0, w.1, n)
    decreases r
  {
    if r == t then (x, hops) else NextPlace(Walk(x, hops, t, r - 1, n), r - 1, n)
  }

  // ---- one copy ----

  /** m, at y, is the only message mentioning v that anyone holds at the start of round r. */
  ghost predicate SoleAt<P, V(!new)>(e: Env<P, V>, init: seq<Node<P, V>>, r: nat, y: nat, m: Message<V>, v: V,
                                     zs: set<nat>)
    requires Ready(e, init) && r <= LastRound(e.c) && y < e.n
  {
    && Held(e, init, r, y, m)
    && forall z: nat, m' {:trigger Held(e, init, r, z, m')} ::
         z < e.n && Held(e, init, r, z, m') && Brings(m', v, zs) ==> z == y && m' == m
  }

  ghost predicate Absent<P, V(!new)>(e: Env<P, V>, init: seq<Node<P, V>>, r: nat, v: V, zs: set<nat>)
    requires Ready(e, init) && r <= LastRound(e.c)
  {
    forall z: nat, m' {:trigger Held(e, init, r, z, m')} :: z < e.n && Held(e, init, r, z, m') ==> !Brings(m', v, zs)
  }

  /** Nobody puts out a new message mentioning v for round r. */
  ghost predicate NoNews<P, V(!new)>(e: Env<P, V>, init: seq<Node<P, V>>, r: nat, v: V, zs: set<nat>)
    requires Ready(e, init) && r <= LastRound(e.c)
  {
    forall z: nat, m' {:trigger m' in PreBatch(e, init, r, z).outgoing} ::
      z < e.n && m' in PreBatch(e, init, r, z).outgoing ==> !Brings(m', v, zs)
  }

  /** Among the messages z handles in round r is one that mentions v. */
  ghost predicate HandlesAt<P, V>(e: Env<P, V>, init: seq<Node<P, V>>, r: nat, z: nat, v: V, zs: set<nat>)
    requires Ready(e, init) && r <= LastRound(e.c) && z < e.n
  {
    exists k :: 0 <= k < |Inbound(e, init, r, z)| && Brings(Inbound(e, init, r, z)[k].message, v, zs)
  }

  lemma {:induction false} WaitingMembers<P(!new), V(!new)>(e: Env<P, V>, nd: Node<P, V>, ts: seq<Transport<V>>,
                                                            m: Message<V>)
    requires Forwards(e.impl)
    ensures m in AbsorbAll(e, nd, ts).waiting <==>
              m in nd.waiting || exists k :: 0 <= k < |ts| && m in Spawns(ts[k].message)
    decreases |ts|
  {
    hide Forwards, Absorb, Spawns;
    if ts != [] {
      AbsorbSpawns(e, nd, ts[0]);
      WaitingMembers(e, Absorb(e, nd, ts[0]), ts[1..], m);
      assert forall k :: 0 < k < |ts| ==> ts[k] == ts[1..][k - 1];
      assert forall k :: 0 <= k < |ts| - 1 ==> ts[1..][k] == ts[k + 1];
    }
  }

  /** A message of a batch that mentions v was held by the sender and goes to its target. */
  lemma SentWasHeld<P(!new), V(!new)>(e: Env<P, V>, init: seq<Node<P, V>>, r: nat, z: nat, k: nat, v: V, zs: set<nat>)
    requires Ready(e, init) && r <= LastRound(e.c) && z < e.n && k < |Inbound(e, init, r, z)|
    requires Brings(Inbound(e, init, r, z)[k].message, v, zs)
    ensures var m, y := Inbound(e, init, r, z)[k].message, Predecessor(z, r, e.n);
            Held(e, init, r, y, m) && (m.flood || m.dest == z) && Target(y, r, e.n) == z
  {
    hide Held, LockNode, LockInv, Target, Predecessor, Ready;
    var y := Predecessor(z, r, e.n);
    var m := Inbound(e, init, r, z)[k].message;
    GossipInverse(y, z, r, e.n);
    BatchMembers(e, init, r, y, m);
    assert Payloads(LockNode(e, init, r, y).sent[r])[k] == m;
  }

  /** Who handles it. */
  lemma HandledNow<P(!new), V(!new)>(e: Env<P, V>, init: seq<Node<P, V>>, r: nat, y: nat, m: Message<V>, hops: seq<nat>,
                                     v: V, zs: set<nat>, z: nat)
    requires Ready(e, init) && r <= LastRound(e.c) && y < e.n && z < e.n && |hops| >= 1 && hops[0] < e.n
    requires SoleAt(e, init, r, y, m, v, zs) && Carries(m, hops, v) && hops[|hops| - 1] in zs
    ensures HandlesAt(e, init, r, z, v, zs) <==> z == hops[0] && Target(y, r, e.n) == z
    ensures forall k :: 0 <= k < |Inbound(e, init, r, z)| && Brings(Inbound(e, init, r, z)[k].message, v, zs) ==>
              Inbound(e, init, r, z)[k].message == m
  {
    hide Held, LockNode, LockInv, Target, Predecessor, Ready, Inbound, Carries;
    CarriedSpawns(m, hops, v);
    CarriedBrings(m, hops, v, zs);
    forall k | 0 <= k < |Inbound(e, init, r, z)| && Brings(Inbound(e, init, r, z)[k].message, v, zs)
      ensures Inbound(e, init, r, z)[k].message == m && z == hops[0] && Target(y, r, e.n) == z
    {
      SentWasHeld(e, init, r, z, k, v, zs);
    }
    if z == hops[0] && Target(y, r, e.n) == z {
      BatchMembers(e, init, r, y, m);
      GossipInverse(y, z, r, e.n);
      InboundIsSent(e, init, r, z);
      var ts := Inbound(e, init, r, z);
      var k :| 0 <= k < |Payloads(ts)| && Payloads(ts)[k] == m;
      assert ts[k].message == m;
    }
  }

  lemma InboundIsSent<P, V>(e: Env<P, V>, init: seq<Node<P, V>>, r: nat, z: nat)
    requires Ready(e, init) && r <= LastRound(e.c) && z < e.n
    ensures r < |LockNode(e, init, r, Predecessor(z, r, e.n)).sent|
    ensures Inbound(e, init, r, z) == LockNode(e, init, r, Predecessor(z, r, e.n)).sent[r]
  {
    hide LockNode, Predecessor, PhaseAt;
    assert LockInv(e, LockNode(e, init, r, Predecessor(z, r, e.n)), Predecessor(z, r, e.n), r);
  }

  lemma {:induction false} CarriedBrings<V(!new)>(m: Message<V>, hops: seq<nat>, v: V, zs: set<nat>)
    requires |hops| >= 1 && Carries(m, hops, v) && hops[|hops| - 1] in zs
    ensures Brings(m, v, zs)
    decreases |hops|
  {
    if |hops| > 1 && m.body.Layer? {
      CarriedSpawns(m, hops, v);
      CarriedBrings(m.body.inner, hops[1..], v, zs);
    }
  }

  /** What was held mentioning v at the start of the next round was kept, or spawned by a message handled now. */
  lemma HeldNext<P(!new), V(!new)>(e: Env<P, V>, init: seq<Node<P, V>>, r: nat, z: nat, m: Message<V>, v: V, zs: set<nat>)
    requires Ready(e, init) && Forwards(e.impl) && r < LastRound(e.c) && z < e.n
    requires NoNews(e, init, r + 1, v, zs) && Held(e, init, r + 1, z, m) && Brings(m, v, zs)
    ensures (Held(e, init, r, z, m) && m.dest != Target(z, r, e.n))
            || exists k :: 0 <= k < |Inbound(e, init, r, z)| && m in Spawns(Inbound(e, init, r, z)[k].message)
  {
    hide PhaseAt, LockNode, LockInv, Target, Predecessor, Ready, Inbound, Absorb, AbsorbAll, EndPhase, Spawns, Forwards;
    var nd, ts := LockNode(e, init, r, z), Inbound(e, init, r, z);
    PreBatchWaiting(e, init, r, z);
    WaitingMembers(e, nd, ts, m);
    BatchMembers(e, init, r, z, m);
  }

  lemma PreBatchWaiting<P, V>(e: Env<P, V>, init: seq<Node<P, V>>, r: nat, z: nat)
    requires Ready(e, init) && r < LastRound(e.c) && z < e.n
    ensures PreBatch(e, init, r + 1, z).waiting == AbsorbAll(e, LockNode(e, init, r, z), Inbound(e, init, r, z)).waiting
  {
    hide PhaseAt, Absorb, AbsorbAll, EndPhase, LockNode, Inbound, LockInv;
    var nd, ts := LockNode(e, init, r, z), Inbound(e, init, r, z);
    RoundDoneShape(e, nd, ts, z, r);
    EndPhaseShape(e, AbsorbAll(e, nd, ts));
  }

  lemma SpawnBrings<V(!new)>(m: Message<V>, m': Message<V>, v: V, zs: set<nat>)
    requires m' in Spawns(m) && Brings(m', v, zs)
    ensures Brings(m, v, zs)
  {
  }

  /** The copy waits, moves to its next hop or is gone. */
  lemma NextRoundOf<P(!new), V(!new)>(e: Env<P, V>, init: seq<Node<P, V>>, r: nat, y: nat, m: Message<V>, hops: seq<nat>,
                                      v: V, zs: set<nat>)
    requires Ready(e, init) && Forwards(e.impl) && r < LastRound(e.c) && y < e.n && Valid(y, hops, e.n) && |hops| >= 1
    requires SoleAt(e, init, r, y, m, v, zs) && Carries(m, hops, v) && hops[|hops| - 1] in zs
    requires NoNews(e, init, r + 1, v, zs)
    ensures Target(y, r, e.n) != hops[0] ==> SoleAt(e, init, r + 1, y, m, v, zs)
    ensures Target(y, r, e.n) == hops[0] && |hops| > 1 ==>
              SoleAt(e, init, r + 1, hops[0], Spawns(m)[0], v, zs) && Carries(Spawns(m)[0], hops[1..], v)
    ensures Target(y, r, e.n) == hops[0] && |hops| == 1 ==> Absent(e, init, r + 1, v, zs)
  {
    hide Held, Target, Predecessor, Ready, Inbound, Carries, Forwards, Brings, Spawns;
    CarriedSpawns(m, hops, v);
    var s := r + 1;
    forall z: nat, m' {:trigger Held(e, init, s, z, m')} | z < e.n && Held(e, init, s, z, m') && Brings(m', v, zs)
      ensures if Target(y, r, e.n) != hops[0] then z == y && m' == m else z == hops[0] && m' in Spawns(m)
    {
      HandledNow(e, init, r, y, m, hops, v, zs, z);
      HeldNext(e, init, r, z, m', v, zs);
      if !(Held(e, init, r, z, m') && m'.dest != Target(z, r, e.n)) {
        var k :| 0 <= k < |Inbound(e, init, r, z)| && m' in Spawns(Inbound(e, init, r, z)[k].message);
        SpawnBrings(Inbound(e, init, r, z)[k].message, m', v, zs);
        assert HandlesAt(e, init, r, z, v, zs);
      }
    }
    if Target(y, r, e.n) != hops[0] {
      KeptMessage(e, init, r, y, m);
    } else if |hops| > 1 {
      MovedOn(e, init, r, y, m, hops, v, zs);
    }
  }

  lemma MovedOn<P(!new), V(!new)>(e: Env<P, V>, init: seq<Node<P, V>>, r: nat, y: nat, m: Message<V>, hops: seq<nat>,
                                  v: V, zs: set<nat>)
    requires Ready(e, init) && Forwards(e.impl) && r < LastRound(e.c) && y < e.n && |hops| > 1 && hops[0] < e.n
    requires SoleAt(e, init, r, y, m, v, zs) && Carries(m, hops, v) && hops[|hops| - 1] in zs
    requires Target(y, r, e.n) == hops[0]
    ensures |Spawns(m)| == 1 && Held(e, init, r + 1, hops[0], Spawns(m)[0])
  {
    hide PhaseAt, Held, Target, Predecessor, Ready, Inbound, Carries, Forwards, Brings, Spawns, LockNode, LockInv;
    var z := hops[0];
    CarriedSpawns(m, hops, v);
    HandledNow(e, init, r, y, m, hops, v, zs, z);
    var k :| 0 <= k < |Inbound(e, init, r, z)| && Brings(Inbound(e, init, r, z)[k].message, v, zs);
    WaitingMembers(e, LockNode(e, init, r, z), Inbound(e, init, r, z), Spawns(m)[0]);
    WaitingIsHeld(e, init, r, z, Spawns(m)[0]);
  }

  // ---- the whole walk ----

  /** The walk says where the copy is: with the walk's node, or nowhere once the hops are used up. */
  ghost predicate CopyAt<P, V(!new)>(e: Env<P, V>, init: seq<Node<P, V>>, r: nat, w: (nat, seq<nat>), v: V, zs: set<nat>)
    requires Ready(e, init) && r <= LastRound(e.c) && w.0 < e.n
  {
    if w.1 == [] then Absent(e, init, r, v, zs)
    else w.1[|w.1| - 1] in zs && exists m :: SoleAt(e, init, r, w.0, m, v, zs) && Carries(m, w.1, v)
  }

  lemma CopyStep<P(!new), V(!new)>(e: Env<P, V>, init: seq<Node<P, V>>, r: nat, w: (nat, seq<nat>), v: V, zs: set<nat>)
    requires Ready(e, init) && Forwards(e.impl) && r < LastRound(e.c) && Valid(w.0, w.1, e.n)
    requires CopyAt(e, init, r, w, v, zs) && NoNews(e, init, r + 1, v, zs)
    ensures CopyAt(e, init, r + 1, NextPlace(w, r, e.n), v, zs)
  {
    hide SoleAt, Carries, Target, Ready, Forwards, Spawns, NoNews, Absent;
    if w.1 == [] {
      StaysAbsent(e, init, r, v, zs);
    } else {
      var m :| SoleAt(e, init, r, w.0, m, v, zs) && Carries(m, w.1, v);
      NextRoundOf(e, init, r, w.0, m, w.1, v, zs);
      CarriedSpawns(m, w.1, v);
    }
  }

  lemma {:induction false} CopyFollowsWalk<P(!new), V(!new)>(
    e: Env<P, V>, init: seq<Node<P, V>>, t: nat, x: nat, m: Message<V>, hops: seq<nat>, v: V, zs: set<nat>, r: nat)
    requires Ready(e, init) && Forwards(e.impl) && Valid(x, hops, e.n) && |hops| >= 1 && t <= r <= LastRound(e.c)
    requires SoleAt(e, init, t, x, m, v, zs) && Carries(m, hops, v) && hops[|hops| - 1] in zs
    requires forall s: nat {:trigger NoNews(e, init, s, v, zs)} :: t < s <= r ==> NoNews(e, init, s, v, zs)
    ensures CopyAt(e, init, r, Walk(x, hops, t, r, e.n), v, zs)
    decreases r
  {
    hide SoleAt, Carries, Ready, Forwards, NoNews, NextPlace, Absent;
    if t < r {
      CopyFollowsWalk(e, init, t, x, m, hops, v, zs, r - 1);
      assert NoNews(e, init, r, v, zs);
      hide CopyAt;
      CopyStep(e, init, r - 1, Walk(x, hops, t, r - 1, e.n), v, zs);
    }
  }

  lemma StaysAbsent<P(!new), V(!new)>(e: Env<P, V>, init: seq<Node<P, V>>, r: nat, v: V, zs: set<nat>)
    requires Ready(e, init) && Forwards(e.impl) && r < LastRound(e.c)
    requires Absent(e, init, r, v, zs) && NoNews(e, init, r + 1, v, zs)
    ensures Absent(e, init, r + 1, v, zs)
  {
    hide Held, Target, Predecessor, Ready, Inbound, Forwards, Brings, Spawns;
    var s := r + 1;
    forall z: nat, m' {:trigger Held(e, init, s, z, m')} | z < e.n && Held(e, init, s, z, m') ensures !Brings(m', v, zs) {
      if Brings(m', v, zs) {
        HeldNext(e, init, r, z, m', v, zs);
        if !Held(e, init, r, z, m') {
          var k :| 0 <= k < |Inbound(e, init, r, z)| && m' in Spawns(Inbound(e, init, r, z)[k].message);
          SpawnBrings(Inbound(e, init, r, z)[k].message, m', v, zs);
          SentWasHeld(e, init, r, z, k, v, zs);
        }
      }
    }
  }

  /**
   * A message of which there is one copy is handled, in each round, by the next hop of its walk when that is the
   * round's target, and by no one else.
   */
  lemma HandledAlongWalk<P(!new), V(!new)>(
    e: Env<P, V>, init: seq<Node<P, V>>, t: nat, x: nat, m: Message<V>, hops: seq<nat>, v: V, zs: set<nat>, r: nat,
    z: nat)
    requires Ready(e, init) && Forwards(e.impl) && t <= r <= LastRound(e.c) && z < e.n
    requires Valid(x, hops, e.n) && |hops| >= 1
    requires SoleAt(e, init, t, x, m, v, zs) && Carries(m, hops, v) && hops[|hops| - 1] in zs
    requires forall s: nat {:trigger NoNews(e, init, s, v, zs)} :: t < s <= r ==> NoNews(e, init, s, v, zs)
    ensures var (y, rest) := Walk(x, hops, t, r, e.n);
            HandlesAt(e, init, r, z, v, zs) <==> rest != [] && z == rest[0] && Target(y, r, e.n) == z
    ensures forall k :: 0 <= k < |Inbound(e, init, r, z)| && Brings(Inbound(e, init, r, z)[k].message, v, zs) ==>
              var rest := Walk(x, hops, t, r, e.n).1; rest != [] && Carries(Inbound(e, init, r, z)[k].message, rest, v)
  {
    hide SoleAt, Carries, Target, Ready, Forwards, NoNews, Walk, Inbound;
    CopyFollowsWalk(e, init, t, x, m, hops, v, zs, r);
    var w := Walk(x, hops, t, r, e.n);
    if w.1 == [] {
      if HandlesAt(e, init, r, z, v, zs) {
        var k :| 0 <= k < |Inbound(e, init, r, z)| && Brings(Inbound(e, init, r, z)[k].message, v, zs);
        SentWasHeld(e, init, r, z, k, v, zs);
      }
    } else {
      var m' :| SoleAt(e, init, r, w.0, m', v, zs) && Carries(m', w.1, v);
      HandledNow(e, init, r, w.0, m', w.1, v, zs, z);
    }
  }

  // ---- when a walk ends ----

  /** In round s the last hop is reached. */
  predicate Arrives(x: nat, hops: seq<nat>, t: nat, s: nat, n: nat)
    requires Valid(x, hops, n) && t <= s
  {
    var (y, rest) := Walk(x, hops, t, s, n);
    |rest| == 1 && Target(y, s, n) == rest[0]
  }

  lemma {:induction false} WalkShape(x: nat, hops: seq<nat>, t: nat, r: nat, n: nat)
    requires Valid(x, hops, n) && t <= r
    ensures var (y, rest) := Walk(x, hops, t, r, n);
            && |rest| <= |hops| && y == ([x] + hops)[|hops| - |rest|] && rest == hops[|hops| - |rest|..]
            && (r > t ==> |Walk(x, hops, t, r - 1, n).1| - 1 <= |rest| <= |Walk(x, hops, t, r - 1, n).1|)
    decreases r
  {
    hide Target;
    if r > t { WalkShape(x, hops, t, r - 1, n); }
  }

  lemma ValidSource(x: nat, hops: seq<nat>, n: nat)
    requires Valid(x, hops, n)
    ensures x < n
  {
  }

  /** The walk itself says when each of its hops can be made. */
  lemma {:induction false} WalkTravels(x: nat, hops: seq<nat>, t: nat, r: nat, n: nat) returns (rounds: seq<nat>)
    requires Valid(x, hops, n) && t <= r
    ensures |rounds| + |Walk(x, hops, t, r, n).1| == |hops|
    ensures forall k :: 0 <= k < |rounds| ==>
              t <= rounds[k] < r && Target(([x] + hops)[k], rounds[k], n) == ([x] + hops)[k + 1]
    ensures forall j, k :: 0 <= j < k < |rounds| ==> rounds[j] < rounds[k]
    decreases r
  {
    hide Target, Valid;
    rounds := [];
    if r > t {
      rounds := WalkTravels(x, hops, t, r - 1, n);
      WalkShape(x, hops, t, r - 1, n);
      var (y, rest) := Walk(x, hops, t, r - 1, n);
      ValidSource(y, rest, n);
      if rest != [] && Target(y, r - 1, n) == rest[0] {
        assert rest[0] == hops[|rounds|] == ([x] + hops)[|rounds| + 1];
        rounds := rounds + [r - 1 as nat];
      }
    }
  }

  lemma WalkMoves(x: nat, hops: seq<nat>, t: nat, r: nat, k: nat, n: nat)
    requires Valid(x, hops, n) && t < r && k < |hops| && Target(([x] + hops)[k], r - 1, n) == hops[k]
    requires |Walk(x, hops, t, r - 1, n).1| <= |hops| - k
    ensures |Walk(x, hops, t, r, n).1| <= |hops| - k - 1
  {
    hide Target;
    WalkShape(x, hops, t, r - 1, n);
  }

  lemma WalkShrinks(x: nat, hops: seq<nat>, t: nat, r: nat, n: nat)
    requires Valid(x, hops, n) && t <= r
    ensures |Walk(x, hops, t, r, n).1| <= |hops|
    ensures r > t ==> |Walk(x, hops, t, r, n).1| <= |Walk(x, hops, t, r - 1, n).1|
  {
    hide Target;
    WalkShape(x, hops, t, r, n);
  }

  lemma TravelsAt(x: nat, hops: seq<nat>, rounds: seq<nat>, k: nat, n: nat)
    requires PathFinder.Travels([x] + hops, rounds, n) && k < |hops|
    ensures |rounds| == |hops| && rounds[0] <= rounds[k] && (k > 0 ==> rounds[k - 1] < rounds[k])
    ensures x < n && hops[k] < n && ([x] + hops)[k] < n && Target(([x] + hops)[k], rounds[k], n) == hops[k]
  {
    hide Target;
    assert ([x] + hops)[k + 1] == hops[k] && ([x] + hops)[0] == x;
  }

  /** The greedy walk is never behind. */
  lemma {:induction false} WalkKeepsUp(x: nat, hops: seq<nat>, t: nat, rounds: seq<nat>, k: nat, r: nat, n: nat)
    requires Valid(x, hops, n) && PathFinder.Travels([x] + hops, rounds, n) && |rounds| == |hops|
    requires k < |hops| && t <= rounds[0] && rounds[k] < r
    ensures t <= r && |Walk(x, hops, t, r, n).1| <= |hops| - k - 1
    decreases r
  {
    hide Target, Walk, PathFinder.Travels, Valid;
    TravelsAt(x, hops, rounds, k, n);
    if rounds[k] == r - 1 {
      if k > 0 { WalkKeepsUp(x, hops, t, rounds, k - 1, r - 1, n); } else { WalkShrinks(x, hops, t, r - 1, n); }
      WalkMoves(x, hops, t, r, k, n);
    } else {
      WalkKeepsUp(x, hops, t, rounds, k, r - 1, n);
      WalkShrinks(x, hops, t, r, n);
    }
  }

  lemma {:induction false} LastStep(x: nat, hops: seq<nat>, t: nat, r: nat, n: nat) returns (s: nat)
    requires Valid(x, hops, n) && t <= r && |hops| >= 1 && Walk(x, hops, t, r, n).1 == []
    ensures t <= s < r && Arrives(x, hops, t, s, n)
    decreases r
  {
    hide Target;
    if Walk(x, hops, t, r - 1, n).1 == [] {
      s := LastStep(x, hops, t, r - 1, n);
    } else {
      s := r - 1;
    }
  }

  lemma ArrivalEnds(x: nat, hops: seq<nat>, t: nat, s: nat, n: nat)
    requires Valid(x, hops, n) && |hops| >= 1 && t <= s && Arrives(x, hops, t, s, n)
    ensures EndsBy(x, hops, n, t, s)
  {
    hide Target;
    var rounds := WalkTravels(x, hops, t, s + 1, n);
    assert Walk(x, hops, t, s + 1, n).1 == [];
    assert forall k :: 0 <= k < |hops| + 1 ==> ([x] + hops)[k] < n;
  }

  /** The greedy rule reaches the last hop by round `last` if and only if the hops can be travelled by then at all. */
  lemma ArrivesIff(x: nat, hops: seq<nat>, t: nat, last: nat, n: nat)
    requires Valid(x, hops, n) && |hops| >= 1
    ensures (exists s: nat {:trigger Arrives(x, hops, t, s, n)} :: t <= s <= last && Arrives(x, hops, t, s, n))
            <==> EndsBy(x, hops, n, t, last)
  {
    hide Target, Walk, Arrives, PathFinder.Travels;
    if s: nat :| t <= s <= last && Arrives(x, hops, t, s, n) {
      ArrivalEnds(x, hops, t, s, n);
    }
    if EndsBy(x, hops, n, t, last) {
      var rounds :| |rounds| == |hops| && PathFinder.Travels([x] + hops, rounds, n)
                    && t <= rounds[0] && rounds[|hops| - 1] <= last;
      WalkKeepsUp(x, hops, t, rounds, |hops| - 1, last + 1, n);
      var s := LastStep(x, hops, t, last + 1, n);
    }
  }
}
