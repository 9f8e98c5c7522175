/** HftProtocolState: the flooding protocol (src/HftProtocolState.cpp). */
module Hft {
  import opened Overlay
  import opened Phases
  import opened RoundEngine
  import opened Crusader

  /** The message and contribution sets are sequences without repetition, in order of insertion. */
  datatype HftState = HftState(current: seq<Message<Contribution>>, relay: seq<Message<Contribution>>,
                               proxyValues: seq<Contribution>)

  type HftEnv = Env<HftState, Contribution>
  type HftNode = Node<HftState, Contribution>

  function Insert<T(==)>(s: seq<T>, x: T): seq<T> {
    if x in s then s else s + [x]
  }

  /** Only contributions of the query being run become proxy values. */
  function Receive(p: HftState, id: nat, ph: Phase, m: Message<Contribution>, query: int)
    : (HftState, seq<Message<Contribution>>)
  {
    if m.body == Null then (p, [])
    else if m.dest != id then (p.(current := Insert(p.current, m)), [])
    else if ph == First && m.body.Layer? then (p.(relay := Insert(p.relay, m.body.inner)), [])
    else if ph == Second && m.body.Value? && m.body.value.tuple.query == query then
      (p.(proxyValues := Insert(p.proxyValues, m.body.value)), [])
    else (p, [])
  }

  /** The sets after the phase change: SCATTER's floods make way for the relayed messages, GATHER's for none. */
  function ChangePhase(p: HftState, before: PhaseState, after: PhaseState): HftState {
    if before.phase == First && after.phase == Second then p.(current := p.relay, relay := [])
    else if before.phase == Second && after.phase == Aggregate then p.(current := [])
    else p
  }

  /** The floods that are not about to be sent to their own destination. */
  function StillFlooding(ms: seq<Message<Contribution>>, target: nat): seq<Message<Contribution>> {
    if ms == [] then []
    else (if ms[0].dest == target then [] else [ms[0]]) + StillFlooding(ms[1..], target)
  }

  function RoundEnd(p: HftState, id: nat, before: PhaseState, after: PhaseState, round: int, n: nat)
    : (HftState, seq<Message<Contribution>>)
    requires id < n && round >= -1
  {
    var q := ChangePhase(p, before, after);
    if InOverlay(after) then (q.(current := StillFlooding(q.current, Target(id, round + 1, n))), q.current)
    else (q, [])
  }

  /** A contribution for a proxy, wrapped for its relay. */
  function TwoLayers(query: int, relay: nat, proxy: nat, v: Contribution): Message<Contribution> {
    Message(query, relay, true, [], Layer(Message(query, proxy, true, [], Value(v))))
  }

  function HftImpl(n: nat, query: int): Impl<HftState, Contribution> {
    Impl((p: HftState, id: nat, ph: Phase, m: Message<Contribution>) => Receive(p, id, ph, m, query),
         (p: HftState, id: nat, before: PhaseState, after: PhaseState, round: int) =>
           if id < n && round >= -1 then RoundEnd(p, id, before, after, round, n) else (p, []))
  }

  /** The object, with the erase-while-iterating loop of end_overlay_round_impl. */
  class HftProtocolState {
    const c: Config
    const id: nat
    const n: nat
    const query: int
    var ps: PhaseState
    var currentFloodMessages: seq<Message<Contribution>>
    var relayMessages: seq<Message<Contribution>>
    var proxyValues: seq<Contribution>
    var outgoing: seq<Message<Contribution>>

    ghost function Sets(): HftState
      reads this
    {
      HftState(currentFloodMessages, relayMessages, proxyValues)
    }

    constructor (c: Config, id: nat, n: nat, query: int)
      requires c.variant == HFT && id < n
      ensures this.c == c && this.id == id && this.n == n && this.query == query
      ensures ps == INITIAL && Sets() == HftState([], [], []) && outgoing == []
    {
      this.c, this.id, this.n, this.query := c, id, n, query;
      ps, currentFloodMessages, relayMessages, proxyValues, outgoing := INITIAL, [], [], [], [];
    }

    /**
     * start_query_impl up to the end of round -1: one two-layer onion for every proxy, through its relay. The common
     * start_query has cleared the proxy values.
     */
    method StartQueryImpl(proxies: seq<nat>, relays: seq<nat>, v: Contribution)
      requires |proxies| == |relays|
      modifies this`ps, this`currentFloodMessages, this`relayMessages, this`proxyValues
      ensures ps == INITIAL && relayMessages == [] && proxyValues == []
      ensures forall m :: m in currentFloodMessages
                <==> exists k :: 0 <= k < |proxies| && m == TwoLayers(query, relays[k], proxies[k], v)
    {
      ps, currentFloodMessages, relayMessages, proxyValues := INITIAL, [], [], [];
      var i := 0;
      while i < |proxies|
        invariant 0 <= i <= |proxies| && ps == INITIAL && relayMessages == [] && proxyValues == []
        invariant forall m :: m in currentFloodMessages
                    <==> exists k :: 0 <= k < i && m == TwoLayers(query, relays[k], proxies[k], v)
      {
        currentFloodMessages := Insert(currentFloodMessages, TwoLayers(query, relays[i], proxies[i], v));
        i := i + 1;
      }
    }

    method HandleOverlayMessageImpl(m: Message<Contribution>)
      modifies this`currentFloodMessages, this`relayMessages, this`proxyValues
      ensures Sets() == Receive(old(Sets()), id, ps.phase, m, query).0
    {
      if m.body != Null {
        if m.dest == id {
          if ps.phase == First {
            if m.body.Layer? { relayMessages := Insert(relayMessages, m.body.inner); }
          } else if ps.phase == Second {
            if m.body.Value? && m.body.value.tuple.query == query {
              proxyValues := Insert(proxyValues, m.body.value);
            }
          }
        } else {
          currentFloodMessages := Insert(currentFloodMessages, m);
        }
      }
    }

    /** Sends all floods and erases, while iterating, those about to reach their destination. */
    method SendFloods(round: int)
      requires id < n && round >= -1
      modifies this`currentFloodMessages, this`outgoing
      ensures currentFloodMessages == StillFlooding(old(currentFloodMessages), Target(id, round + 1, n))
      ensures outgoing == old(outgoing) + old(currentFloodMessages)
    {
      hide Target;
      var all, target := currentFloodMessages, Target(id, round + 1, n);
      var i, kept := 0, [];
      while i < |all|
        invariant 0 <= i <= |all| && outgoing == old(outgoing) + all[..i]
        invariant kept + StillFlooding(all[i..], target) == StillFlooding(all, target)
      {
        assert all[i..][1..] == all[i + 1..] && all[..i + 1] == all[..i] + [all[i]];
        outgoing := outgoing + [all[i]];
        if target != all[i].dest { kept := kept + [all[i]]; }
        i := i + 1;
      }
      assert all[..i] == all;
      currentFloodMessages := kept;
    }

    method EndOverlayRoundImpl(round: int)
      requires c.variant == HFT && id < n && round >= -1
      modifies this`ps, this`currentFloodMessages, this`relayMessages, this`outgoing
      ensures ps == EndRoundPhase(c, old(ps), round)
      ensures Sets() == RoundEnd(old(Sets()), id, old(ps), ps, round, n).0
      ensures outgoing == old(outgoing) + RoundEnd(old(Sets()), id, old(ps), ps, round, n).1
    {
      hide Target, StillFlooding;
      if ps.phase == First && round >= c.l + c.f {
        currentFloodMessages := [];
        currentFloodMessages, relayMessages := relayMessages, currentFloodMessages;
        ps := PhaseState(Second, round, false);
      } else if ps.phase == Second && round >= ps.mark + c.l + c.f {
        currentFloodMessages := [];
        ps := ps.(phase := Aggregate);
      }
      if InOverlay(ps) {
        SendFloods(round);
      }
    }
  }
}
