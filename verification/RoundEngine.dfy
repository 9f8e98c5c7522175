/**
 * The round-synchronised overlay engine: ProtocolState (src/ProtocolState_impl.h) and the overlay
 * dispatch of MeterClient, for any protocol variant and under any pattern of unreachable nodes.
 */
module RoundEngine {
  import opened Overlay
  import opened Phases

  // ---- messages ----

  /** A null payload, the next layer of an onion, or a protocol value. */
  datatype Payload<V> = Null | Layer(inner: Message<V>) | Value(value: V)

  /** An OverlayMessage; a PathOverlayMessage is one with a non-empty remaining path. */
  datatype Message<V> = Message(query: int, dest: nat, flood: bool, remaining: seq<nat>, body: Payload<V>)

  datatype Transport<V> = Transport(sender: nat, round: nat, final: bool, message: Message<V>)

  // ---- one node ----

  /**
   * The subclass hooks: handle_overlay_message_impl yields a new protocol state and additions to the
   * waiting messages, end_overlay_round_impl a new protocol state and additions to the outgoing ones.
   */
  datatype Impl<!P, !V> = Impl(
    receive: (P, nat, Phase, Message<V>) -> (P, seq<Message<V>>),
    roundEnd: (P, nat, PhaseState, PhaseState, int) -> (P, seq<Message<V>>))

  /**
   * What is fixed during a query: its number, the number a node goes by before it starts the query, and whether
   * sends to node i succeed in round t, `up(i, t)`.
   */
  datatype Env<!P, !V> = Env(c: Config, n: nat, query: int, prior: int, impl: Impl<P, V>, up: (nat, nat) -> bool)

  /**
   * The fields of ProtocolState. The last three record what the outside can observe: messages handled,
   * each with the round the node was in, messages discarded, and the batch sent in each round.
   */
  datatype Node<P, V> = Node(
    id: nat, started: bool, round: int, last: bool, ps: PhaseState, failed: set<nat>, ping: bool,
    waiting: seq<Message<V>>, outgoing: seq<Message<V>>, proto: P,
    future: seq<Transport<V>>,
    handled: seq<(int, Transport<V>)>, dropped: seq<Transport<V>>, sent: seq<seq<Transport<V>>>)

  /** A node's phase state matches its round, and once the overlay is over the round is the last one. */
  ghost predicate Wf<P, V>(e: Env<P, V>, nd: Node<P, V>) {
    && nd.id < e.n
    && -1 <= nd.round <= LastRound(e.c)
    && (if nd.last then nd.round == LastRound(e.c) && nd.ps.phase == Aggregate
        else nd.ps == PhaseAt(e.c, nd.round - 1))
    && (nd.started <==> nd.round >= 0)
  }

  // ---- building a batch ----

  function Select<V>(ms: seq<Message<V>>, target: nat, floods: bool): seq<Message<V>> {
    if ms == [] then []
    else (if (floods && ms[0].flood) || ms[0].dest == target then [ms[0]] else []) + Select(ms[1..], target, floods)
  }

  function Hold<V>(ms: seq<Message<V>>, target: nat, floods: bool): seq<Message<V>> {
    if ms == [] then []
    else (if (floods && ms[0].flood) || ms[0].dest == target then [] else [ms[0]]) + Hold(ms[1..], target, floods)
  }

  /** Transport wrappers for a round's messages, only the last one marked final. */
  function Wrap<V>(ms: seq<Message<V>>, sender: nat, round: nat): (r: seq<Transport<V>>)
    ensures |r| == |ms|
    ensures forall k :: 0 <= k < |r| ==> r[k] == Transport(sender, round, k == |ms| - 1, ms[k])
  {
    if ms == [] then [] else [Transport(sender, round, |ms| == 1, ms[0])] + Wrap(ms[1..], sender, round)
  }

  function Batch<V>(ms: seq<Message<V>>, sender: nat, round: nat, target: nat, query: int): seq<Transport<V>> {
    if ms == [] then [Transport(sender, round, true, Message(query, target, false, [], Null))]
    else Wrap(ms, sender, round)
  }

  function SendBatch<P, V>(e: Env<P, V>, nd: Node<P, V>): Node<P, V>
    requires nd.id < e.n && nd.round >= 0
  {
    var target := Target(nd.id, nd.round, e.n);
    var ms := Select(nd.waiting, target, false) + Select(nd.outgoing, target, true);
    nd.(waiting := Hold(nd.waiting, target, false) + Hold(nd.outgoing, target, true),
        outgoing := [],
        sent := nd.sent + [Batch(ms, nd.id, nd.round, target, e.query)],
        failed := nd.failed + if e.up(target, nd.round) then {} else {target})
  }

  // ---- handling and ending rounds ----

  /** handle_overlay_message up to, not including, the end of the round. */
  function Absorb<P, V>(e: Env<P, V>, nd: Node<P, V>, t: Transport<V>): Node<P, V> {
    var m := t.message;
    var popped := if m.remaining == [] then m else m.(dest := m.remaining[0], remaining := m.remaining[1..]);
    var (proto, more) := e.impl.receive(nd.proto, nd.id, nd.ps.phase, popped);
    nd.(waiting := nd.waiting + (if m.remaining == [] then [] else [popped]) + more,
        proto := proto, handled := nd.handled + [(nd.round, t)])
  }

  /** end_overlay_round_impl, including start_aggregate_phase setting is_last_round. */
  function EndPhase<P, V>(e: Env<P, V>, nd: Node<P, V>): Node<P, V> {
    if !InOverlay(nd.ps) then nd
    else
      var ps := EndRoundPhase(e.c, nd.ps, nd.round);
      var (proto, more) := e.impl.roundEnd(nd.proto, nd.id, nd.ps, ps, nd.round);
      nd.(ps := ps, proto := proto, outgoing := nd.outgoing + more, last := nd.last || !InOverlay(ps))
  }

  /** The start of the next round: send its batch, then ping its predecessor unless known to be down. */
  function NextRound<P, V>(e: Env<P, V>, nd: Node<P, V>): Node<P, V>
    requires nd.id < e.n && nd.round >= -1
  {
    var b := SendBatch(e, nd.(started := true, round := nd.round + 1, ping := false));
    var pred := Predecessor(b.id, b.round, e.n);
    b.(failed := b.failed + if pred in b.failed || e.up(pred, b.round) then {} else {pred})
  }

  /** A buffered message is due in its own round of its own query. */
  predicate Due<V>(t: Transport<V>, round: int, query: int) {
    t.round == round && t.message.query == query
  }

  function ForRound<V>(ts: seq<Transport<V>>, round: int, query: int): seq<Transport<V>> {
    if ts == [] then [] else (if Due(ts[0], round, query) then [ts[0]] else []) + ForRound(ts[1..], round, query)
  }

  function NotForRound<V>(ts: seq<Transport<V>>, round: int, query: int): seq<Transport<V>> {
    if ts == [] then [] else (if Due(ts[0], round, query) then [] else [ts[0]]) + NotForRound(ts[1..], round, query)
  }

  lemma EndPhaseWf<P, V>(e: Env<P, V>, nd: Node<P, V>)
    requires Wf(e, nd)
    ensures var a := EndPhase(e, nd);
            && a.round == nd.round && (nd.round >= LastRound(e.c) ==> a.last)
            && (a.last ==> Wf(e, a))
            && (!a.last ==> Wf(e, NextRound(e, a)))
  {
    PhaseSchedule(e.c, nd.round);
    PhaseSchedule(e.c, nd.round - 1);
  }

  /** end_overlay_round: end the phase's round, advance, and handle what already arrived for the new round. */
  function EndRound<P, V>(e: Env<P, V>, nd: Node<P, V>): (r: Node<P, V>)
    requires Wf(e, nd)
    ensures Wf(e, r) && r.round >= nd.round
    decreases LastRound(e.c) - nd.round, 0, 0
  {
    var a := EndPhase(e, nd);
    EndPhaseWf(e, nd);
    if a.last then a
    else
      var b := NextRound(e, a);
      var d := HandleAll(e, b.(future := NotForRound(b.future, b.round, e.query)), ForRound(b.future, b.round, e.query));
      if d.round == b.round && Predecessor(b.id, b.round, e.n) in d.failed then EndRound(e, d) else d
  }

  function HandleMessage<P, V>(e: Env<P, V>, nd: Node<P, V>, t: Transport<V>): (r: Node<P, V>)
    requires Wf(e, nd)
    ensures Wf(e, r) && r.round >= nd.round
    decreases LastRound(e.c) - nd.round, 1, 0
  {
    var b := Absorb(e, nd, t);
    if t.final && InOverlay(b.ps) then EndRound(e, b) else b
  }

  function HandleAll<P, V>(e: Env<P, V>, nd: Node<P, V>, ts: seq<Transport<V>>): (r: Node<P, V>)
    requires Wf(e, nd)
    ensures Wf(e, r) && r.round >= nd.round
    decreases LastRound(e.c) - nd.round, 2, |ts|
  {
    if ts == [] then nd else HandleAll(e, HandleMessage(e, nd, ts[0]), ts[1..])
  }

  // ---- events from outside ----

  /** get_current_query_num. */
  function CurrentQuery<P, V>(e: Env<P, V>, nd: Node<P, V>): int {
    if nd.started then e.query else e.prior
  }

  /**
   * MeterClient::handle_message for an overlay message: later queries and rounds are buffered, earlier ones
   * discarded. A node that has not started has nothing to do with its earlier query any more.
   */
  function Dispatch<P, V>(e: Env<P, V>, nd: Node<P, V>, t: Transport<V>): (r: Node<P, V>)
    requires Wf(e, nd)
    ensures Wf(e, r) && r.round >= nd.round
  {
    if t.sender >= e.n || Target(t.sender, t.round, e.n) != nd.id then nd.(dropped := nd.dropped + [t])
    else if t.message.query > CurrentQuery(e, nd) then nd.(future := nd.future + [t])
    else if t.message.query < CurrentQuery(e, nd) || !nd.started then nd.(dropped := nd.dropped + [t])
    else if t.round == nd.round then HandleMessage(e, nd, t)
    else if t.round > nd.round then nd.(future := nd.future + [t])
    else nd.(dropped := nd.dropped + [t])
  }

  /** handle_round_timeout, with `ok` the outcome of the repeated ping. */
  function Timeout<P, V>(e: Env<P, V>, nd: Node<P, V>, ok: bool): (r: Node<P, V>)
    requires Wf(e, nd) && nd.started
    ensures Wf(e, r) && r.round >= nd.round
  {
    if nd.ping then
      nd.(ping := false, failed := nd.failed + if ok then {} else {Predecessor(nd.id, nd.round, e.n)})
    else EndRound(e, nd)
  }

  datatype Event<V> = Start | Deliver(t: Transport<V>) | TimeoutFires(ok: bool) | PingReply(sender: nat)

  function React<P, V>(e: Env<P, V>, nd: Node<P, V>, ev: Event<V>): (r: Node<P, V>)
    requires Wf(e, nd)
    ensures Wf(e, r) && r.round >= nd.round
  {
    match ev
    case Start => if nd.started then nd else EndRound(e, nd)
    case Deliver(t) => Dispatch(e, nd, t)
    case TimeoutFires(ok) => if nd.started && !nd.last then Timeout(e, nd, ok) else nd
    case PingReply(sender) =>
      if nd.started && sender == Predecessor(nd.id, nd.round, e.n) then nd.(ping := true) else nd
  }

  function RunEvents<P, V>(e: Env<P, V>, nd: Node<P, V>, evs: seq<Event<V>>): (r: Node<P, V>)
    requires Wf(e, nd)
    ensures Wf(e, r) && r.round >= nd.round
    decreases |evs|
  {
    if evs == [] then nd else RunEvents(e, React(e, nd, evs[0]), evs[1..])
  }

  /**
   * start_query: everything about the round is reset; waiting messages stay, whatever query they are of. The
   * variant's start_query_impl gives the new protocol state and the first messages.
   */
  function Restart<P, V>(nd: Node<P, V>, proto: P, launch: seq<Message<V>>): Node<P, V> {
    nd.(started := false, round := -1, last := false, ps := INITIAL, failed := {}, ping := false, proto := proto,
        outgoing := nd.outgoing + launch, handled := [], dropped := [], sent := [])
  }

  lemma RestartWf<P, V>(e: Env<P, V>, nd: Node<P, V>, proto: P, launch: seq<Message<V>>)
    requires nd.id < e.n
    ensures Wf(e, Restart(nd, proto, launch))
    ensures nd.future == [] ==> Fresh(Restart(nd, proto, launch), e.n)
  {
  }

  /** A node about to take part in a query. */
  ghost predicate Fresh<P, V>(nd: Node<P, V>, n: nat) {
    && nd.id < n && !nd.started && nd.round == -1 && !nd.last && nd.ps == INITIAL && nd.failed == {}
    && nd.future == [] && nd.handled == [] && nd.dropped == [] && nd.sent == []
  }

  /**
   * Whatever messages, timeouts and unreachable neighbours a node meets, in any order, every event is
   * handled in finitely many steps, its phase is the one its round prescribes, and it leaves the
   * overlay exactly at the end of the last round.
   */
  lemma ScheduleUnderAnyEvents<P, V>(e: Env<P, V>, nd: Node<P, V>, evs: seq<Event<V>>)
    requires Fresh(nd, e.n)
    ensures Wf(e, nd)
    ensures var r := RunEvents(e, nd, evs);
            && (r.last <==> r.ps.phase == Aggregate)
            && (r.last ==> r.round == LastRound(e.c))
            && (!r.last ==> r.ps.phase == if r.round <= PhaseLength(e.c) then First else Second)
  {
    PhaseSchedule(e.c, RunEvents(e, nd, evs).round - 1);
  }
}
