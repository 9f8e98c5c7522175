/** ProtocolState as the object the repository has: fields updated in place, proved equal to RoundEngine's steps. */
module ProtocolStateObject {
  import opened Overlay
  import opened Phases
  import opened RoundEngine

  class ProtocolState<P, V> {
    var e: Env<P, V>
    const id: nat
    var started: bool
    var overlayRound: int
    var isLastRound: bool
    var ps: PhaseState
    var failedMeterIds: set<nat>
    var pingResponse: bool
    var waiting: seq<Message<V>>
    var outgoing: seq<Message<V>>
    var proto: P
    var future: seq<Transport<V>>
    // What the network and the log have seen.
    var handled: seq<(int, Transport<V>)>
    var dropped: seq<Transport<V>>
    var sent: seq<seq<Transport<V>>>

    ghost function State(): Node<P, V>
      reads this
    {
      Node(id, started, overlayRound, isLastRound, ps, failedMeterIds, pingResponse, waiting, outgoing, proto,
           future, handled, dropped, sent)
    }

    ghost predicate Valid()
      reads this
    {
      Wf(e, State())
    }

    constructor (e: Env<P, V>, id: nat, proto: P)
      requires id < e.n
      ensures Valid() && this.e == e && Fresh(State(), e.n) && State().proto == proto && State().id == id
    {
      this.e, this.id, this.proto := e, id, proto;
      started, overlayRound, isLastRound, ps := false, -1, false, INITIAL;
      failedMeterIds, pingResponse, waiting, outgoing := {}, false, [], [];
      future, handled, dropped, sent := [], [], [], [];
    }

    static lemma PartitionStep(ms: seq<Message<V>>, i: nat, target: nat, floods: bool)
      requires i < |ms|
      ensures var goes := (floods && ms[i].flood) || ms[i].dest == target;
              && Select(ms[i..], target, floods) == (if goes then [ms[i]] else []) + Select(ms[i + 1..], target, floods)
              && Hold(ms[i..], target, floods) == (if goes then [] else [ms[i]]) + Hold(ms[i + 1..], target, floods)
    {
    }

    /** One of the two loops of send_overlay_message_batch: what goes to this round's target, and what is kept. */
    static method Partition(ms: seq<Message<V>>, target: nat, floods: bool)
      returns (toSend: seq<Message<V>>, kept: seq<Message<V>>)
      ensures toSend == Select(ms, target, floods) && kept == Hold(ms, target, floods)
    {
      hide Select, Hold;
      toSend, kept := [], [];
      var i := 0;
      assert ms[i..] == ms;
      LastPartition(target, floods);
      while i < |ms|
        invariant 0 <= i <= |ms|
        invariant toSend + Select(ms[i..], target, floods) == Select(ms, target, floods)
        invariant kept + Hold(ms[i..], target, floods) == Hold(ms, target, floods)
      {
        PartitionStep(ms, i, target, floods);
        if (floods && ms[i].flood) || ms[i].dest == target {
          toSend := toSend + [ms[i]];
        } else {
          kept := kept + [ms[i]];
        }
        i := i + 1;
      }
      assert ms[i..] == [];
    }

    static lemma LastPartition(target: nat, floods: bool)
      ensures Select<V>([], target, floods) == [] && Hold<V>([], target, floods) == []
    {
    }

    method SendOverlayMessageBatch()
      requires id < e.n && overlayRound >= 0
      modifies this
      ensures e == old(e) && State() == SendBatch(e, old(State())) && overlayRound == old(overlayRound)
    {
      hide Target, Select, Hold, Batch;
      var target := Target(id, overlayRound, e.n);
      var ready, stillWaiting := Partition(waiting, target, false);
      var fromOutgoing, held := Partition(outgoing, target, true);
      waiting, outgoing := stillWaiting + held, [];
      sent := sent + [Batch(ready + fromOutgoing, id, overlayRound, target, e.query)];
      if !e.up(target, overlayRound) {
        failedMeterIds := failedMeterIds + {target};
      }
    }

    method HandleOverlayMessage(t: Transport<V>)
      requires Valid()
      modifies this
      ensures e == old(e) && Valid() && State() == HandleMessage(e, old(State()), t)
      decreases LastRound(e.c) - overlayRound, 1, 0
    {
      var m := t.message;
      if |m.remaining| > 0 {
        m := m.(dest := m.remaining[0], remaining := m.remaining[1..]);
        waiting := waiting + [m];
      }
      var (p, more) := e.impl.receive(proto, id, ps.phase, m);
      proto, waiting := p, waiting + more;
      handled := handled + [(overlayRound, t)];
      assert State() == Absorb(e, old(State()), t);
      if t.final && InOverlay(ps) {
        EndOverlayRound();
      }
    }

    method EndOverlayRound()
      requires Valid()
      modifies this
      ensures e == old(e) && Valid() && State() == EndRound(e, old(State()))
      decreases LastRound(e.c) - overlayRound, 0, 1
    {
      hide PhaseAt, NextRound, HandleAll, ForRound, NotForRound;
      EndPhaseWf(e, State());
      if InOverlay(ps) {
        var ps' := EndRoundPhase(e.c, ps, overlayRound);
        var (p, more) := e.impl.roundEnd(proto, id, ps, ps', overlayRound);
        ps, proto, outgoing := ps', p, outgoing + more;
        if !InOverlay(ps) { isLastRound := true; }
      }
      assert State() == EndPhase(e, old(State()));
      SuperEndOverlayRound();
    }

    /** What super_end_overlay_round makes of a node whose phase has been brought up to date. */
    ghost function Advanced(a: Node<P, V>): Node<P, V>
      reads this
      requires a.id < e.n && a.round >= -1 && (!a.last ==> Wf(e, NextRound(e, a)))
    {
      if a.last then a
      else
        var b := NextRound(e, a);
        var d := HandleAll(e, b.(future := NotForRound(b.future, b.round, e.query)), ForRound(b.future, b.round, e.query));
        if d.round == b.round && Predecessor(b.id, b.round, e.n) in d.failed then EndRound(e, d) else d
    }

    method SuperEndOverlayRound()
      requires id < e.n && -1 <= overlayRound <= LastRound(e.c)
      requires isLastRound ==> Valid()
      requires !isLastRound ==> overlayRound < LastRound(e.c) && Wf(e, NextRound(e, State()))
      modifies this
      ensures e == old(e) && Valid() && State() == Advanced(old(State()))
      decreases LastRound(e.c) - overlayRound, 0, 0
    {
      if isLastRound {
        return;
      }
      BeginRound();
      ghost var b := State();
      var received := TakeForRound();
      assert State() == b.(future := NotForRound(b.future, b.round, e.query));
      var pred := Predecessor(id, overlayRound, e.n);
      var localRound := overlayRound;
      HandleReceived(received);
      if localRound == overlayRound && pred in failedMeterIds {
        EndOverlayRound();
      }
    }

    /** Advances the round, sends its batch and pings its predecessor. */
    method BeginRound()
      requires id < e.n && overlayRound >= -1
      modifies this
      ensures e == old(e) && State() == NextRound(e, old(State()))
    {
      hide SendBatch, Predecessor, Target;
      started, overlayRound, pingResponse := true, overlayRound + 1, false;
      SendOverlayMessageBatch();
      var pred := Predecessor(id, overlayRound, e.n);
      if pred !in failedMeterIds && !e.up(pred, overlayRound) {
        failedMeterIds := failedMeterIds + {pred};
      }
    }

    method HandleReceived(received: seq<Transport<V>>)
      requires Valid()
      modifies this
      ensures e == old(e) && Valid() && State() == HandleAll(e, old(State()), received)
      decreases LastRound(e.c) - overlayRound, 2, 0
    {
      hide EndRound, HandleMessage, PhaseAt;
      var i := 0;
      while i < |received|
        invariant 0 <= i <= |received| && e == old(e) && Valid() && overlayRound >= old(overlayRound)
        invariant HandleAll(e, State(), received[i..]) == HandleAll(e, old(State()), received)
      {
        HandleOverlayMessage(received[i]);
        assert received[i..][1..] == received[i + 1..];
        i := i + 1;
      }
    }

    /** Removes the buffered messages of the current round, in order of arrival. */
    method TakeForRound() returns (received: seq<Transport<V>>)
      modifies this`future
      ensures received == ForRound(old(future), overlayRound, e.query)
      ensures future == NotForRound(old(future), overlayRound, e.query)
    {
      received := [];
      var kept: seq<Transport<V>> := [];
      var i := 0;
      while i < |future|
        invariant 0 <= i <= |future| && future == old(future)
        invariant received + ForRound(future[i..], overlayRound, e.query) == ForRound(future, overlayRound, e.query)
        invariant kept + NotForRound(future[i..], overlayRound, e.query) == NotForRound(future, overlayRound, e.query)
      {
        assert future[i..][0] == future[i] && future[i..][1..] == future[i + 1..];
        if Due(future[i], overlayRound, e.query) { received := received + [future[i]]; } else { kept := kept + [future[i]]; }
        i := i + 1;
      }
      future := kept;
    }

    /** The overlay part of MeterClient::handle_message. */
    method ReceiveOverlayMessage(t: Transport<V>)
      requires Valid()
      modifies this
      ensures e == old(e) && Valid() && State() == Dispatch(e, old(State()), t)
    {
      if t.sender >= e.n || Target(t.sender, t.round, e.n) != id {
        dropped := dropped + [t];
      } else if t.message.query > (if started then e.query else e.prior) {
        future := future + [t];
      } else if t.message.query < (if started then e.query else e.prior) || !started {
        dropped := dropped + [t];
      } else if t.round == overlayRound {
        HandleOverlayMessage(t);
      } else if t.round > overlayRound {
        future := future + [t];
      } else {
        dropped := dropped + [t];
      }
    }

    method HandleRoundTimeout(ok: bool)
      requires Valid() && started
      modifies this
      ensures e == old(e) && Valid() && State() == Timeout(e, old(State()), ok)
    {
      if pingResponse {
        pingResponse := false;
        if !ok {
          failedMeterIds := failedMeterIds + {Predecessor(id, overlayRound, e.n)};
        }
      } else {
        EndOverlayRound();
      }
    }

    method HandlePingResponse(sender: nat)
      requires Valid() && started
      modifies this`pingResponse
      ensures e == old(e) && Valid() && State() == React(e, old(State()), PingReply(sender))
    {
      if sender == Predecessor(id, overlayRound, e.n) {
        pingResponse := true;
      }
    }

    /** What start_query clears. */
    method ResetRound()
      modifies this
      ensures e == old(e)
      ensures State() == old(State()).(started := false, round := -1, last := false, ps := INITIAL, failed := {},
                                       ping := false)
    {
      overlayRound, isLastRound, pingResponse, failedMeterIds := -1, false, false, {};
      started, ps := false, INITIAL;
    }

    /** What the variant's start_query_impl sets up; waiting messages stay. */
    method Launch(proto': P, launch: seq<Message<V>>)
      modifies this
      ensures e == old(e)
      ensures State() == old(State()).(proto := proto', outgoing := old(outgoing) + launch, handled := [], dropped := [],
                                       sent := [])
    {
      proto, outgoing := proto', outgoing + launch;
      handled, dropped, sent := [], [], [];
    }

    /** start_query: resets the round, takes the variant's start, and ends "round -1", which sends the first batch. */
    method StartQuery(e': Env<P, V>, proto': P, launch: seq<Message<V>>)
      requires Valid() && id < e'.n
      modifies this
      ensures Valid() && e == e' && Wf(e', Restart(old(State()), proto', launch))
      ensures State() == EndRound(e', Restart(old(State()), proto', launch))
    {
      hide EndRound, Wf, PhaseAt, Restart;
      RestartWf(e', State(), proto', launch);
      ghost var s := State();
      ResetRound();
      Launch(proto', launch);
      assert State() == Restart(s, proto', launch) by { RestartIs(s, proto', launch); }
      e := e';
      EndOverlayRound();
    }
  }
  lemma RestartIs<P, V>(nd: Node<P, V>, proto: P, launch: seq<Message<V>>)
    ensures Restart(nd, proto, launch)
         == nd.(started := false, round := -1, last := false, ps := INITIAL, failed := {}, ping := false).(
               proto := proto, outgoing := nd.outgoing + launch, handled := [], dropped := [], sent := [])
  {
  }
}
