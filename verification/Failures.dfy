/**
 * One meter under failures: whatever arrives and whoever is down, rounds end, the failed meters are recorded exactly,
 * and no message is lost (src/ProtocolState_impl.h:111-187, src/MeterClient.cpp:62-79).
 */
module Failures {
  import opened Overlay
  import opened Phases
  import opened RoundEngine

  // ---- what ending rounds does ----

  /** The neighbours of round t that cannot be reached in it. */
  function Found<P, V>(e: Env<P, V>, id: nat, t: nat): set<nat>
    requires id < e.n
  {
    (if e.up(Target(id, t, e.n), t) then {} else {Target(id, t, e.n)})
    + (if e.up(Predecessor(id, t, e.n), t) then {} else {Predecessor(id, t, e.n)})
  }

  function FoundIn<P, V>(e: Env<P, V>, id: nat, a: int, b: int): set<nat>
    requires id < e.n && a >= -1
    decreases b - a
  {
    if b <= a then {} else FoundIn(e, id, a, b - 1) + Found(e, id, b)
  }

  lemma {:induction false} FoundInMembers<P, V>(e: Env<P, V>, id: nat, a: int, b: int, i: nat)
    requires id < e.n && a >= -1
    ensures i in FoundIn(e, id, a, b) <==> exists t: nat :: a < t <= b && i in Found(e, id, t)
    decreases b - a
  {
    hide Found;
    if a < b { FoundInMembers(e, id, a, b - 1, i); }
  }

  lemma {:induction false} FoundInSplit<P, V>(e: Env<P, V>, id: nat, a: int, m: int, b: int)
    requires id < e.n && -1 <= a <= m <= b
    ensures FoundIn(e, id, a, b) == FoundIn(e, id, a, m) + FoundIn(e, id, m, b)
    decreases b - m
  {
    hide Found;
    if m < b { FoundInSplit(e, id, a, m, b - 1); }
  }

  /** The predecessor of nd's round is not known to be down. */
  predicate Waits<P, V>(e: Env<P, V>, nd: Node<P, V>)
    requires nd.id < e.n
  {
    nd.last || (nd.round >= 0 && Predecessor(nd.id, nd.round, e.n) !in nd.failed)
  }

  /** How r can follow nd by handling messages and ending rounds. */
  ghost predicate Follows<P, V>(e: Env<P, V>, nd: Node<P, V>, r: Node<P, V>) {
    && nd.id == r.id < e.n && -1 <= nd.round <= r.round && (nd.last ==> r.last)
    && (!nd.ping || r.round > nd.round ==> !r.ping)
    && r.failed == nd.failed + FoundIn(e, nd.id, nd.round, r.round)
    && (r.round > nd.round ==> Waits(e, r))
  }

  lemma FollowsTwice<P, V>(e: Env<P, V>, nd: Node<P, V>, m: Node<P, V>, r: Node<P, V>)
    requires Follows(e, nd, m) && Follows(e, m, r)
    ensures Follows(e, nd, r)
  {
    hide Found, Predecessor;
    FoundInSplit(e, nd.id, nd.round, m.round, r.round);
  }

  lemma NextRoundFailed<P, V>(e: Env<P, V>, a: Node<P, V>)
    requires a.id < e.n && a.round >= -1
    ensures var b := NextRound(e, a);
            && b.id == a.id && b.round == a.round + 1 && !b.ping && b.last == a.last
            && b.failed == a.failed + Found(e, a.id, a.round + 1)
            && FoundIn(e, a.id, a.round, b.round) == Found(e, a.id, a.round + 1)
  {
    hide Target, Predecessor;
    assert FoundIn(e, a.id, a.round, a.round) == {};
  }

  lemma EndPhaseFollows<P, V>(e: Env<P, V>, nd: Node<P, V>)
    requires Wf(e, nd)
    ensures Follows(e, nd, EndPhase(e, nd)) && EndPhase(e, nd).round == nd.round
  {
    hide EndRoundPhase, Wf;
    InRange(e, nd);
  }

  lemma InRange<P, V>(e: Env<P, V>, nd: Node<P, V>)
    requires Wf(e, nd)
    ensures nd.id < e.n && nd.round >= -1
  {
  }

  /** Ending a round leaves the overlay or leads to a later round, and never into one with a dead predecessor. */
  lemma {:induction false} EndRoundFollows<P, V>(e: Env<P, V>, nd: Node<P, V>)
    requires Wf(e, nd)
    ensures var r := EndRound(e, nd); Follows(e, nd, r) && (r.round > nd.round || r.last) && Waits(e, r)
    decreases LastRound(e.c) - nd.round, 0, 0
  {
    hide PhaseAt, NextRound, Follows, Found, ForRound, NotForRound, Predecessor;
    var a := EndPhase(e, nd);
    EndPhaseWf(e, nd);
    EndPhaseFollows(e, nd);
    if !a.last {
      var b := NextRound(e, a);
      NextRoundFailed(e, a);
      var b' := b.(future := NotForRound(b.future, b.round, e.query));
      var ts := ForRound(b.future, b.round, e.query);
      HandleAllFollows(e, b', ts);
      var d := HandleAll(e, b', ts);
      NextFollows(e, nd, a, b', d);
      if d.round == b.round && Predecessor(b.id, b.round, e.n) in d.failed {
        EndRoundFollows(e, d);
        EarlyEnd(e, nd, d, EndRound(e, d));
      }
    }
  }

  /** A round entered and left standing. */
  lemma NextFollows<P, V>(e: Env<P, V>, nd: Node<P, V>, a: Node<P, V>, b: Node<P, V>, d: Node<P, V>)
    requires Follows(e, nd, a) && a.round == nd.round && !a.last && Follows(e, b, d)
    requires b.id == a.id && b.round == a.round + 1 && !b.ping && b.last == a.last
    requires b.failed == a.failed + Found(e, a.id, b.round)
    ensures d.id == nd.id && d.round > nd.round && !d.ping
    ensures d.failed == nd.failed + FoundIn(e, nd.id, nd.round, d.round)
    ensures d.round > b.round || Predecessor(b.id, b.round, e.n) !in d.failed ==> Follows(e, nd, d) && Waits(e, d)
  {
    hide Found, Predecessor;
    assert FoundIn(e, nd.id, nd.round, nd.round) == {};
    FoundInSplit(e, nd.id, nd.round, b.round, d.round);
  }

  lemma EarlyEnd<P, V>(e: Env<P, V>, nd: Node<P, V>, d: Node<P, V>, r: Node<P, V>)
    requires nd.id == d.id < e.n && -1 <= nd.round < d.round && !d.ping && !nd.last && Follows(e, d, r) && Waits(e, r)
    requires d.failed == nd.failed + FoundIn(e, nd.id, nd.round, d.round)
    ensures Follows(e, nd, r)
  {
    hide Found, Predecessor;
    FoundInSplit(e, nd.id, nd.round, d.round, r.round);
  }

  lemma {:induction false} HandleMessageFollows<P, V>(e: Env<P, V>, nd: Node<P, V>, t: Transport<V>)
    requires Wf(e, nd)
    ensures Follows(e, nd, HandleMessage(e, nd, t))
    decreases LastRound(e.c) - nd.round, 1, 0
  {
    hide PhaseAt, Follows;
    var b := Absorb(e, nd, t);
    AbsorbFollows(e, nd, t);
    if t.final && InOverlay(b.ps) {
      EndRoundFollows(e, b);
      FollowsTwice(e, nd, b, EndRound(e, b));
    }
  }

  lemma AbsorbFollows<P, V>(e: Env<P, V>, nd: Node<P, V>, t: Transport<V>)
    requires Wf(e, nd)
    ensures Follows(e, nd, Absorb(e, nd, t))
  {
    hide PhaseAt;
  }

  lemma {:induction false} HandleAllFollows<P, V>(e: Env<P, V>, nd: Node<P, V>, ts: seq<Transport<V>>)
    requires Wf(e, nd)
    ensures Follows(e, nd, HandleAll(e, nd, ts))
    decreases LastRound(e.c) - nd.round, 2, |ts|
  {
    hide PhaseAt, Follows, HandleMessage;
    if ts == [] {
      NothingFollows(e, nd);
    } else {
      HandleMessageFollows(e, nd, ts[0]);
      HandleAllFollows(e, HandleMessage(e, nd, ts[0]), ts[1..]);
      FollowsTwice(e, nd, HandleMessage(e, nd, ts[0]), HandleAll(e, nd, ts));
    }
  }

  lemma NothingFollows<P, V>(e: Env<P, V>, nd: Node<P, V>)
    requires Wf(e, nd)
    ensures Follows(e, nd, nd)
  {
    hide PhaseAt;
  }

  /** The failed meters after ending a round: those known before, and exactly the unreachable neighbours met since. */
  lemma FailedExactly<P, V>(e: Env<P, V>, nd: Node<P, V>, i: nat)
    requires Wf(e, nd)
    ensures var r := EndRound(e, nd);
            i in r.failed <==> i in nd.failed || exists t: nat :: nd.round < t <= r.round && i in Found(e, nd.id, t)
  {
    hide EndRound, Wf, Found;
    EndRoundFollows(e, nd);
    FoundInMembers(e, nd.id, nd.round, EndRound(e, nd).round, i);
  }

  // ---- timeouts ----

  /** A timeout ends the round if and only if the predecessor has not answered since the last one. */
  lemma TimeoutEndsRound<P, V>(e: Env<P, V>, nd: Node<P, V>, ok: bool)
    requires Wf(e, nd) && nd.started && !nd.last
    ensures var r := Timeout(e, nd, ok);
            && (!nd.ping <==> r.round > nd.round || r.last)
            && (nd.ping ==>
                  r == nd.(ping := false, failed := nd.failed + if ok then {} else {Predecessor(nd.id, nd.round, e.n)}))
  {
    hide EndRound, PhaseAt;
    if !nd.ping { EndRoundFollows(e, nd); }
  }

  /** How many more timeouts without a reply a meter can take. */
  function Patience<P, V>(e: Env<P, V>, nd: Node<P, V>): int {
    if nd.last then 0 else LastRound(e.c) - nd.round + 1 + if nd.ping then 1 else 0
  }

  function Timeouts<V>(evs: seq<Event<V>>): nat {
    if evs == [] then 0 else (if evs[0].TimeoutFires? then 1 else 0) + Timeouts(evs[1..])
  }

  lemma FollowsPatience<P, V>(e: Env<P, V>, nd: Node<P, V>, r: Node<P, V>)
    requires Follows(e, nd, r) && Wf(e, nd) && Wf(e, r)
    ensures Patience(e, r) <= Patience(e, nd)
    ensures (r.round > nd.round || r.last) && !nd.last ==> Patience(e, r) < Patience(e, nd)
  {
    hide PhaseAt, FoundIn;
  }

  /** A reply of the predecessor's. */
  predicate Answers<P, V>(e: Env<P, V>, nd: Node<P, V>, ev: Event<V>)
    requires Wf(e, nd)
  {
    ev.PingReply? && nd.started && ev.sender == Predecessor(nd.id, nd.round, e.n)
  }

  /** No predecessor answers; others may. */
  ghost predicate Unanswered<P, V>(e: Env<P, V>, nd: Node<P, V>, evs: seq<Event<V>>)
    requires Wf(e, nd)
    decreases |evs|
  {
    evs == [] || (!Answers(e, nd, evs[0]) && Unanswered(e, React(e, nd, evs[0]), evs[1..]))
  }

  lemma ReactPatience<P, V>(e: Env<P, V>, nd: Node<P, V>, ev: Event<V>)
    requires Wf(e, nd) && nd.started && !Answers(e, nd, ev)
    ensures var r := React(e, nd, ev);
            && r.started && Patience(e, r) <= Patience(e, nd)
            && (ev.TimeoutFires? && !nd.last ==> Patience(e, r) < Patience(e, nd))
  {
    hide EndRound, HandleMessage, Follows, PhaseAt, Target;
    match ev {
      case Start =>
      case Deliver(t) =>
        HandleMessageFollows(e, nd, t);
        FollowsPatience(e, nd, HandleMessage(e, nd, t));
      case TimeoutFires(ok) =>
        EndRoundFollows(e, nd);
        FollowsPatience(e, nd, EndRound(e, nd));
      case PingReply(_) =>
    }
  }

  /**
   * A meter whose predecessors no longer answer leaves the overlay after a bounded number of timeouts, whatever else
   * arrives in between and whoever is down.
   */
  lemma {:induction false} TimeoutsEndOverlay<P, V>(e: Env<P, V>, nd: Node<P, V>, evs: seq<Event<V>>)
    requires Wf(e, nd) && nd.started && Unanswered(e, nd, evs)
    requires Timeouts(evs) >= Patience(e, nd)
    ensures RunEvents(e, nd, evs).last
    decreases |evs|
  {
    hide React, PhaseAt;
    if evs != [] {
      ReactPatience(e, nd, evs[0]);
      var r := React(e, nd, evs[0]);
      if nd.last { LastStays(e, nd, evs); } else { TimeoutsEndOverlay(e, r, evs[1..]); }
    }
  }

  lemma {:induction false} LastStays<P, V>(e: Env<P, V>, nd: Node<P, V>, evs: seq<Event<V>>)
    requires Wf(e, nd) && nd.last
    ensures RunEvents(e, nd, evs).last
    decreases |evs|
  {
    hide PhaseAt, HandleMessage, EndRound, Follows;
    if evs != [] {
      if evs[0].Deliver? {
        HandleMessageFollows(e, nd, evs[0].t);
        FollowsLast(e, nd, HandleMessage(e, nd, evs[0].t));
      }
      LastStays(e, React(e, nd, evs[0]), evs[1..]);
    }
  }

  lemma FollowsLast<P, V>(e: Env<P, V>, nd: Node<P, V>, r: Node<P, V>)
    requires Follows(e, nd, r)
    ensures nd.last ==> r.last
  {
  }

  // ---- what becomes of a message ----

  function Messages<V>(handled: seq<(int, Transport<V>)>): seq<Transport<V>> {
    seq(|handled|, k requires 0 <= k < |handled| => handled[k].1)
  }

  /** Handled, buffered or discarded. */
  ghost function Fate<P, V>(nd: Node<P, V>): multiset<Transport<V>> {
    multiset(Messages(nd.handled)) + multiset(nd.future) + multiset(nd.dropped)
  }

  lemma {:induction false} DueSplit<V>(ts: seq<Transport<V>>, round: int, query: int)
    ensures multiset(ForRound(ts, round, query)) + multiset(NotForRound(ts, round, query)) == multiset(ts)
  {
    hide Due;
    if ts != [] {
      DueSplit(ts[1..], round, query);
      assert ts == [ts[0]] + ts[1..];
    }
  }

  lemma AbsorbFate<P, V>(e: Env<P, V>, nd: Node<P, V>, t: Transport<V>)
    ensures Fate(Absorb(e, nd, t)) == Fate(nd) + multiset{t}
  {
    var a := Absorb(e, nd, t);
    assert Messages(a.handled) == Messages(nd.handled) + [t];
  }

  lemma PhaseAndBatchFate<P, V>(e: Env<P, V>, nd: Node<P, V>)
    requires nd.id < e.n && nd.round >= -1
    ensures Fate(EndPhase(e, nd)) == Fate(nd) && Fate(NextRound(e, nd)) == Fate(nd)
    ensures EndPhase(e, nd).id == nd.id && EndPhase(e, nd).round == nd.round
  {
    hide Messages, EndRoundPhase, Predecessor, Target;
  }

  lemma BufferFate<P, V>(b: Node<P, V>, query: int)
    ensures Fate(b.(future := NotForRound(b.future, b.round, query))) + multiset(ForRound(b.future, b.round, query))
            == Fate(b)
  {
    hide ForRound, NotForRound, Messages;
    DueSplit(b.future, b.round, query);
  }

  lemma {:induction false} EndRoundFate<P, V>(e: Env<P, V>, nd: Node<P, V>)
    requires Wf(e, nd)
    ensures Fate(EndRound(e, nd)) == Fate(nd)
    decreases LastRound(e.c) - nd.round, 0, 0
  {
    hide PhaseAt, ForRound, NotForRound, Predecessor, Target, Fate, EndPhase, NextRound;
    var a := EndPhase(e, nd);
    EndPhaseWf(e, nd);
    PhaseAndBatchFate(e, nd);
    if !a.last {
      var b := NextRound(e, a);
      PhaseAndBatchFate(e, a);
      var ts := ForRound(b.future, b.round, e.query);
      var b' := b.(future := NotForRound(b.future, b.round, e.query));
      BufferFate(b, e.query);
      NextRoundLater(e, a);
      HandleAllFate(e, b', ts);
      var d := HandleAll(e, b', ts);
      if d.round == b.round && Predecessor(b.id, b.round, e.n) in d.failed { EndRoundFate(e, d); }
    }
  }

  lemma NextRoundLater<P, V>(e: Env<P, V>, a: Node<P, V>)
    requires a.id < e.n && a.round >= -1
    ensures NextRound(e, a).round == a.round + 1
  {
    hide Target, Predecessor;
  }

  lemma {:induction false} HandleMessageFate<P, V>(e: Env<P, V>, nd: Node<P, V>, t: Transport<V>)
    requires Wf(e, nd)
    ensures Fate(HandleMessage(e, nd, t)) == Fate(nd) + multiset{t}
    decreases LastRound(e.c) - nd.round, 1, 0
  {
    hide PhaseAt, Fate;
    AbsorbFate(e, nd, t);
    var b := Absorb(e, nd, t);
    if t.final && InOverlay(b.ps) { EndRoundFate(e, b); }
  }

  lemma {:induction false} HandleAllFate<P, V>(e: Env<P, V>, nd: Node<P, V>, ts: seq<Transport<V>>)
    requires Wf(e, nd)
    ensures Fate(HandleAll(e, nd, ts)) == Fate(nd) + multiset(ts)
    decreases LastRound(e.c) - nd.round, 2, |ts|
  {
    hide PhaseAt, Fate, HandleMessage;
    if ts != [] {
      HandleMessageFate(e, nd, ts[0]);
      HandleAllFate(e, HandleMessage(e, nd, ts[0]), ts[1..]);
      assert ts == [ts[0]] + ts[1..];
    }
  }

  function Delivered<V>(evs: seq<Event<V>>): seq<Transport<V>> {
    if evs == [] then [] else (if evs[0].Deliver? then [evs[0].t] else []) + Delivered(evs[1..])
  }

  /** Whatever happens, each message that arrives is handled once, buffered or discarded, and nothing else is. */
  lemma {:induction false} NothingLost<P, V>(e: Env<P, V>, nd: Node<P, V>, evs: seq<Event<V>>)
    requires Wf(e, nd)
    ensures Fate(RunEvents(e, nd, evs)) == Fate(nd) + multiset(Delivered(evs))
    decreases |evs|
  {
    hide React, PhaseAt, Fate;
    if evs != [] {
      ReactFate(e, nd, evs[0]);
      NothingLost(e, React(e, nd, evs[0]), evs[1..]);
    }
  }

  lemma ReactFate<P, V>(e: Env<P, V>, nd: Node<P, V>, ev: Event<V>)
    requires Wf(e, nd)
    ensures Fate(React(e, nd, ev)) == Fate(nd) + if ev.Deliver? then multiset{ev.t} else multiset{}
  {
    hide EndRound, HandleMessage, PhaseAt, Target, Wf, Messages, Dispatch;
    match ev {
      case Deliver(t) => DispatchFate(e, nd, t);
      case PingReply(_) =>
      case _ => EndRoundFate(e, nd);
    }
  }

  lemma DispatchFate<P, V>(e: Env<P, V>, nd: Node<P, V>, t: Transport<V>)
    requires Wf(e, nd)
    ensures Fate(Dispatch(e, nd, t)) == Fate(nd) + multiset{t}
  {
    hide HandleMessage, Target, Wf, Fate;
    HandleMessageFate(e, nd, t);
    SetAsideFate(nd, t);
  }

  lemma SetAsideFate<P, V>(nd: Node<P, V>, t: Transport<V>)
    ensures Fate(nd.(future := nd.future + [t])) == Fate(nd) + multiset{t}
    ensures Fate(nd.(dropped := nd.dropped + [t])) == Fate(nd) + multiset{t}
  {
    hide Messages;
  }

  // ---- from whom messages are taken ----

  /** t was sent to id by the rules of the overlay. */
  predicate SentTo<P, V>(e: Env<P, V>, t: Transport<V>, id: nat) {
    t.sender < e.n && Target(t.sender, t.round, e.n) == id
  }

  predicate TakenRightly<P, V>(e: Env<P, V>, h: (int, Transport<V>), id: nat) {
    SentTo(e, h.1, id) && h.1.message.query == e.query && h.1.round <= h.0
  }

  ghost predicate Careful<P, V>(e: Env<P, V>, nd: Node<P, V>) {
    && (forall k :: 0 <= k < |nd.handled| ==> TakenRightly(e, nd.handled[k], nd.id))
    && (forall t :: t in nd.future ==> SentTo(e, t, nd.id))
  }

  lemma {:induction false} DueOnly<P, V>(e: Env<P, V>, ts: seq<Transport<V>>, round: int, id: nat)
    requires forall t :: t in ts ==> SentTo(e, t, id)
    ensures forall t :: t in ForRound(ts, round, e.query) ==> SentTo(e, t, id) && Due(t, round, e.query)
    ensures forall t :: t in NotForRound(ts, round, e.query) ==> SentTo(e, t, id)
  {
    hide SentTo, Due;
    if ts != [] { DueOnly(e, ts[1..], round, id); }
  }

  lemma {:induction false} EndRoundCareful<P, V>(e: Env<P, V>, nd: Node<P, V>)
    requires Wf(e, nd) && Careful(e, nd)
    ensures Careful(e, EndRound(e, nd)) && EndRound(e, nd).id == nd.id
    decreases LastRound(e.c) - nd.round, 0, 0
  {
    hide PhaseAt, ForRound, NotForRound, Predecessor, Target, SentTo;
    var a := EndPhase(e, nd);
    EndPhaseWf(e, nd);
    if !a.last {
      var b := NextRound(e, a);
      var ts := ForRound(b.future, b.round, e.query);
      DueOnly(e, b.future, b.round, b.id);
      var b' := b.(future := NotForRound(b.future, b.round, e.query));
      HandleAllCareful(e, b', ts);
      var d := HandleAll(e, b', ts);
      if d.round == b.round && Predecessor(b.id, b.round, e.n) in d.failed { EndRoundCareful(e, d); }
    }
  }

  lemma {:induction false} HandleMessageCareful<P, V>(e: Env<P, V>, nd: Node<P, V>, t: Transport<V>)
    requires Wf(e, nd) && Careful(e, nd) && SentTo(e, t, nd.id) && t.message.query == e.query && t.round <= nd.round
    ensures Careful(e, HandleMessage(e, nd, t)) && HandleMessage(e, nd, t).id == nd.id
    decreases LastRound(e.c) - nd.round, 1, 0
  {
    hide PhaseAt, SentTo;
    var b := Absorb(e, nd, t);
    if t.final && InOverlay(b.ps) { EndRoundCareful(e, b); }
  }

  lemma {:induction false} HandleAllCareful<P, V>(e: Env<P, V>, nd: Node<P, V>, ts: seq<Transport<V>>)
    requires Wf(e, nd) && Careful(e, nd)
    requires forall t :: t in ts ==> SentTo(e, t, nd.id) && t.message.query == e.query && t.round <= nd.round
    ensures Careful(e, HandleAll(e, nd, ts)) && HandleAll(e, nd, ts).id == nd.id
    decreases LastRound(e.c) - nd.round, 2, |ts|
  {
    hide PhaseAt, Careful, SentTo, HandleMessage;
    if ts != [] {
      HandleMessageCareful(e, nd, ts[0]);
      HandleAllCareful(e, HandleMessage(e, nd, ts[0]), ts[1..]);
    }
  }

  /**
   * Whatever arrives, a meter handles only messages of the query being run that its gossip predecessor of their round
   * sent, and none before their round.
   */
  lemma {:induction false} TakesOnlyFromPredecessors<P, V>(e: Env<P, V>, nd: Node<P, V>, evs: seq<Event<V>>)
    requires Wf(e, nd) && Careful(e, nd)
    ensures Careful(e, RunEvents(e, nd, evs)) && RunEvents(e, nd, evs).id == nd.id
    decreases |evs|
  {
    hide React, PhaseAt, Careful;
    if evs != [] {
      ReactCareful(e, nd, evs[0]);
      TakesOnlyFromPredecessors(e, React(e, nd, evs[0]), evs[1..]);
    }
  }

  lemma ReactCareful<P, V>(e: Env<P, V>, nd: Node<P, V>, ev: Event<V>)
    requires Wf(e, nd) && Careful(e, nd)
    ensures Careful(e, React(e, nd, ev)) && React(e, nd, ev).id == nd.id
  {
    hide EndRound, HandleMessage, PhaseAt, Target;
    match ev {
      case Deliver(t) =>
        if SentTo(e, t, nd.id) && t.message.query == e.query && t.round <= nd.round { HandleMessageCareful(e, nd, t); }
      case PingReply(_) =>
      case _ => EndRoundCareful(e, nd);
    }
  }
}
