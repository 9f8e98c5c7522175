/** The simulator's two-heap scheduler with garbage collection (src/simulation/EventManager.cpp, Event.cpp). */
module Simulation {

  const GARBAGE_COLLECT_INTERVAL := 20

  /** An event's identity stands for the object; whether it is cancelled is kept beside the queues. */
  datatype Event = Event(id: nat, fireTime: int, timeout: bool)

  /** What an action does to the manager: submit events and cancel events it holds pointers to. */
  datatype Op = Submit(fireTime: int, timeout: bool) | Cancel(id: nat)

  /** `trace` records the actions run, each with the time it saw. */
  datatype Sim = Sim(time: int, lastGc: int, events: set<Event>, timeouts: set<Event>, cancelled: set<nat>,
                     nextId: nat, threw: bool, trace: seq<(nat, int)>)

  // ---- one iteration of run_simulation ----

  /** The events a heap may have on top; which one among equal times is the library's choice. */
  predicate Top(q: set<Event>, e: Event) {
    e in q && forall f :: f in q ==> e.fireTime <= f.fireTime
  }

  function Collected(s: Sim, gc: bool): Sim {
    if gc && s.timeouts != {} && s.time - s.lastGc > GARBAGE_COLLECT_INTERVAL then
      s.(timeouts := (set e | e in s.timeouts && e.id !in s.cancelled), lastGc := s.time)
    else s
  }

  /** The loop takes e next. */
  predicate Next(s: Sim, e: Event) {
    || (Top(s.timeouts, e) && forall f :: f in s.events ==> e.fireTime < f.fireTime)
    || (Top(s.events, e) && forall f :: f in s.timeouts ==> e.fireTime <= f.fireTime)
  }

  function DoSubmit(s: Sim, fireTime: int, timeout: bool): Sim {
    if fireTime < s.time then s.(threw := true)
    else
      var e := Event(s.nextId, fireTime, timeout);
      s.(nextId := s.nextId + 1,
         events := if timeout then s.events else s.events + {e},
         timeouts := if timeout then s.timeouts + {e} else s.timeouts)
  }

  function DoCancel(s: Sim, id: nat): Sim {
    if id < s.nextId then s.(cancelled := s.cancelled + {id}) else s
  }

  /** An exception ends the action. */
  function RunOps(s: Sim, ops: seq<Op>): Sim
    decreases |ops|
  {
    if ops == [] || s.threw then s
    else RunOps(match ops[0] case Submit(t, k) => DoSubmit(s, t, k) case Cancel(id) => DoCancel(s, id), ops[1..])
  }

  function Pop(s: Sim, e: Event, ops: seq<Op>): Sim {
    var popped := if e in s.timeouts then s.(timeouts := s.timeouts - {e}) else s.(events := s.events - {e});
    if e.fireTime < s.time then popped.(threw := true)
    else
      var now := popped.(time := e.fireTime);
      if e.id in s.cancelled then now else RunOps(now.(trace := now.trace + [(e.id, now.time)]), ops)
  }

  // ---- the invariant ----

  predicate Dead(s: Sim, e: Event) {
    e.id in s.cancelled
  }

  /** Queued events are of their queue's kind, were issued by submit, have their own ids, and lie in the future. */
  ghost predicate Inv(s: Sim) {
    && (forall e :: e in s.events ==> !e.timeout && e.id < s.nextId && s.time <= e.fireTime)
    && (forall e :: e in s.timeouts ==> e.timeout && e.id < s.nextId && s.time <= e.fireTime)
    && (forall e, f :: e in s.events + s.timeouts && f in s.events + s.timeouts && e.id == f.id ==> e == f)
    && (forall id :: id in s.cancelled ==> id < s.nextId)
    && (forall k :: 0 <= k < |s.trace| ==> s.trace[k].1 <= s.time)
    && (forall j, k :: 0 <= j < k < |s.trace| ==> s.trace[j].1 <= s.trace[k].1)
  }

  lemma CollectedKeeps(s: Sim, gc: bool)
    requires Inv(s)
    ensures Inv(Collected(s, gc))
  {
  }

  lemma DoKeeps(s: Sim, op: Op)
    requires Inv(s)
    ensures op.Submit? ==> Inv(DoSubmit(s, op.fireTime, op.timeout))
    ensures op.Cancel? ==> Inv(DoCancel(s, op.id))
  {
  }

  lemma {:induction false} RunOpsKeeps(s: Sim, ops: seq<Op>)
    requires Inv(s)
    ensures Inv(RunOps(s, ops))
    decreases |ops|
  {
    hide Inv;
    if ops != [] && !s.threw {
      DoKeeps(s, ops[0]);
      RunOpsKeeps(match ops[0] case Submit(t, k) => DoSubmit(s, t, k) case Cancel(id) => DoCancel(s, id), ops[1..]);
    }
  }

  /** A popped event is never in the past: the error is unreachable. */
  lemma PopKeeps(s: Sim, e: Event, ops: seq<Op>)
    requires Inv(s) && Next(s, e)
    ensures s.time <= e.fireTime && Inv(Pop(s, e, ops))
  {
    hide RunOps, DoSubmit, DoCancel;
    var popped := if e in s.timeouts then s.(timeouts := s.timeouts - {e}) else s.(events := s.events - {e});
    var now := popped.(time := e.fireTime);
    assert Inv(now);
    if !Dead(s, e) {
      var traced := now.(trace := now.trace + [(e.id, now.time)]);
      assert Inv(traced);
      RunOpsKeeps(traced, ops);
    }
  }

  // ---- the object ----

  class EventManager {
    var simulationTime: int
    var lastGcTime: int
    var eventQueue: set<Event>
    var timeoutQueue: set<Event>
    var cancelled: set<nat>
    var nextId: nat
    var threw: bool
    ghost var trace: seq<(nat, int)>

    ghost function View(): Sim
      reads this
    {
      Sim(simulationTime, lastGcTime, eventQueue, timeoutQueue, cancelled, nextId, threw, trace)
    }

    constructor ()
      ensures View() == Sim(0, 0, {}, {}, {}, 0, false, [])
    {
      simulationTime, lastGcTime, eventQueue, timeoutQueue := 0, 0, {}, {};
      cancelled, nextId, threw, trace := {}, 0, false, [];
    }

    /** An event in the past is refused with an exception. */
    method SubmitEvent(fireTime: int, isTimeout: bool)
      modifies this
      ensures View() == DoSubmit(old(View()), fireTime, isTimeout)
    {
      if fireTime < simulationTime {
        threw := true;
        return;
      }
      var event := Event(nextId, fireTime, isTimeout);
      nextId := nextId + 1;
      if isTimeout {
        timeoutQueue := timeoutQueue + {event};
      } else {
        eventQueue := eventQueue + {event};
      }
    }

    method CancelEvent(id: nat)
      modifies this
      ensures View() == DoCancel(old(View()), id)
    {
      if id < nextId {
        cancelled := cancelled + {id};
      }
    }

    method GarbageCollectTimeouts()
      modifies this`timeoutQueue
      ensures timeoutQueue == set e | e in old(timeoutQueue) && e.id !in cancelled
    {
      var filtered: set<Event> := {};
      while timeoutQueue != {}
        invariant timeoutQueue <= old(timeoutQueue)
        invariant filtered == set e | e in old(timeoutQueue) - timeoutQueue && e.id !in cancelled
        decreases timeoutQueue
      {
        TopExists(timeoutQueue);
        var event :| Top(timeoutQueue, event);
        if event.id !in cancelled {
          filtered := filtered + {event};
        }
        timeoutQueue := timeoutQueue - {event};
      }
      timeoutQueue := filtered;
    }

    method RunAction(ops: seq<Op>)
      modifies this
      ensures View() == RunOps(old(View()), ops)
    {
      var k := 0;
      while k < |ops| && !threw
        invariant 0 <= k <= |ops|
        invariant RunOps(View(), ops[k..]) == RunOps(old(View()), ops)
      {
        assert ops[k..][0] == ops[k] && ops[k..][1..] == ops[k + 1..];
        match ops[k] {
          case Submit(t, isTimeout) => SubmitEvent(t, isTimeout);
          case Cancel(id) => CancelEvent(id);
        }
        k := k + 1;
      }
    }

    /** The two tops compared: an event of the ordinary heap goes first among equal times. */
    method TakeNext() returns (next: Event)
      requires Inv(View()) && (eventQueue != {} || timeoutQueue != {})
      modifies this`eventQueue, this`timeoutQueue
      ensures Next(old(View()), next)
      ensures var s := old(View());
              View() == if next in s.timeouts then s.(timeouts := s.timeouts - {next}) else s.(events := s.events - {next})
    {
      QueuesApart(View());
      hide Inv;
      next := Event(0, 0, false);
      if timeoutQueue != {} {
        TopExists(timeoutQueue);
        next :| Top(timeoutQueue, next);
      }
      if eventQueue != {} {
        TopExists(eventQueue);
        var other :| Top(eventQueue, other);
        if timeoutQueue == {} || other.fireTime <= next.fireTime {
          next := other;
        }
      }
      if next in timeoutQueue {
        timeoutQueue := timeoutQueue - {next};
      } else {
        eventQueue := eventQueue - {next};
      }
    }

    /** One turn of run_simulation's loop, the action doing `ops`; false at the end of the simulation. */
    method Iterate(ops: seq<Op>) returns (more: bool, next: Event)
      requires Inv(View())
      modifies this
      ensures Inv(View())
      ensures var s := Collected(old(View()), true);
              if s.events == {} && s.timeouts == {} then !more && View() == s
              else more && Next(s, next) && View() == Pop(s, next, ops)
    {
      hide Inv, RunOps, Next;
      next := Event(0, 0, false);
      if timeoutQueue != {} && simulationTime - lastGcTime > GARBAGE_COLLECT_INTERVAL {
        GarbageCollectTimeouts();
        lastGcTime := simulationTime;
      }
      ghost var s := View();
      CollectedKeeps(old(View()), true);
      assert s == Collected(old(View()), true);
      if timeoutQueue == {} && eventQueue == {} {
        return false, next;
      }
      next := TakeNext();
      more := true;
      if next.fireTime < simulationTime {
        threw := true;
      } else {
        simulationTime := next.fireTime;
        if next.id !in cancelled {
          trace := trace + [(next.id, simulationTime)];
          RunAction(ops);
        }
      }
      PopKeeps(s, next, ops);
    }
  }

  lemma QueuesApart(s: Sim)
    requires Inv(s)
    ensures forall e :: e in s.events ==> e !in s.timeouts
  {
  }

  lemma {:induction false} TopExists(q: set<Event>)
    requires q != {}
    ensures exists e :: Top(q, e)
    decreases |q|
  {
    var x :| x in q;
    var rest := q - {x};
    if rest == {} {
      assert q == {x};
      assert Top(q, x);
    } else {
      TopExists(rest);
      var y :| Top(rest, y);
      assert forall f :: f in q ==> f == x || f in rest;
      assert Top(q, if x.fireTime <= y.fireTime then x else y);
    }
  }

  // ---- a single time-ordered queue ----

  /** The live events, and what can be observed. */
  datatype Spec = Spec(live: set<Event>, nextId: nat, threw: bool, trace: seq<(nat, int)>)

  /** Before all others: in time, and an ordinary event before a timeout of the same time. */
  predicate Earliest(live: set<Event>, e: Event) {
    && e in live
    && forall f :: f in live ==> e.fireTime < f.fireTime || (e.fireTime == f.fireTime && (e.timeout ==> f.timeout))
  }

  function SpecDo(p: Spec, now: int, op: Op): Spec {
    match op
    case Submit(t, k) =>
      if t < now then p.(threw := true)
      else p.(live := p.live + {Event(p.nextId, t, k)}, nextId := p.nextId + 1)
    case Cancel(id) => p.(live := set e | e in p.live && e.id != id)
  }

  function SpecOps(p: Spec, now: int, ops: seq<Op>): Spec
    decreases |ops|
  {
    if ops == [] || p.threw then p else SpecOps(SpecDo(p, now, ops[0]), now, ops[1..])
  }

  function Fire(p: Spec, e: Event, ops: seq<Op>): Spec {
    SpecOps(p.(live := p.live - {e}, trace := p.trace + [(e.id, e.fireTime)]), e.fireTime, ops)
  }

  function Abs(s: Sim): Spec {
    Spec((set e | e in s.events + s.timeouts && !Dead(s, e)), s.nextId, s.threw, s.trace)
  }

  // ---- one iteration fires the earliest live event or nothing ----

  lemma CollectedStutters(s: Sim, gc: bool)
    ensures Abs(Collected(s, gc)) == Abs(s)
  {
  }

  lemma DoRefines(s: Sim, op: Op)
    requires Inv(s)
    ensures op.Submit? ==> Abs(DoSubmit(s, op.fireTime, op.timeout)) == SpecDo(Abs(s), s.time, op)
    ensures op.Cancel? ==> Abs(DoCancel(s, op.id)) == SpecDo(Abs(s), s.time, op)
  {
  }

  lemma {:induction false} RunOpsRefines(s: Sim, ops: seq<Op>)
    requires Inv(s)
    ensures Abs(RunOps(s, ops)) == SpecOps(Abs(s), s.time, ops)
    decreases |ops|
  {
    hide Inv, Abs, SpecDo;
    assert Abs(s).threw == s.threw by { AbsThrew(s); }
    if ops != [] && !s.threw {
      DoKeeps(s, ops[0]);
      DoRefines(s, ops[0]);
      RunOpsRefines(match ops[0] case Submit(t, k) => DoSubmit(s, t, k) case Cancel(id) => DoCancel(s, id), ops[1..]);
    }
  }

  lemma AbsThrew(s: Sim)
    ensures Abs(s).threw == s.threw
  {
  }

  /** Popping a cancelled event changes nothing observable; popping another fires the earliest live one. */
  lemma PopRefines(s: Sim, e: Event, ops: seq<Op>)
    requires Inv(s) && Next(s, e)
    ensures if Dead(s, e) then Abs(Pop(s, e, ops)) == Abs(s)
            else Earliest(Abs(s).live, e) && Abs(Pop(s, e, ops)) == Fire(Abs(s), e, ops)
  {
    hide RunOps, SpecOps;
    var popped := if e in s.timeouts then s.(timeouts := s.timeouts - {e}) else s.(events := s.events - {e});
    var now := popped.(time := e.fireTime);
    assert s.time <= e.fireTime;
    if Dead(s, e) {
      assert Abs(now).live == Abs(s).live;
    } else {
      var traced := now.(trace := now.trace + [(e.id, now.time)]);
      assert Inv(traced);
      assert Abs(traced).live == Abs(s).live - {e};
      RunOpsRefines(traced, ops);
    }
  }

  // ---- whole simulations ----

  datatype Turn = Turn(next: Event, ops: seq<Op>)

  function Iteration(s: Sim, gc: bool, t: Turn): Sim {
    Pop(Collected(s, gc), t.next, t.ops)
  }

  predicate Simulates(s: Sim, gc: bool, turns: seq<Turn>)
    decreases |turns|
  {
    turns == [] || (!s.threw && Next(Collected(s, gc), turns[0].next) && Simulates(Iteration(s, gc, turns[0]), gc, turns[1..]))
  }

  function After(s: Sim, gc: bool, turns: seq<Turn>): Sim
    decreases |turns|
  {
    if turns == [] then s else After(Iteration(s, gc, turns[0]), gc, turns[1..])
  }

  /** The turns whose action runs. */
  function Fired(s: Sim, gc: bool, turns: seq<Turn>): seq<Turn>
    decreases |turns|
  {
    if turns == [] then []
    else
      (if Dead(s, turns[0].next) then [] else [turns[0]]) + Fired(Iteration(s, gc, turns[0]), gc, turns[1..])
  }

  predicate SpecRuns(p: Spec, fires: seq<Turn>)
    decreases |fires|
  {
    fires == [] || (!p.threw && Earliest(p.live, fires[0].next) && SpecRuns(Fire(p, fires[0].next, fires[0].ops), fires[1..]))
  }

  function SpecAfter(p: Spec, fires: seq<Turn>): Spec
    decreases |fires|
  {
    if fires == [] then p else SpecAfter(Fire(p, fires[0].next, fires[0].ops), fires[1..])
  }

  lemma IterationRefines(s: Sim, gc: bool, t: Turn)
    requires Inv(s) && Next(Collected(s, gc), t.next)
    ensures Inv(Iteration(s, gc, t))
    ensures if Dead(s, t.next) then Abs(Iteration(s, gc, t)) == Abs(s)
            else Earliest(Abs(s).live, t.next) && Abs(Iteration(s, gc, t)) == Fire(Abs(s), t.next, t.ops)
  {
    hide Inv, Abs, Pop, Fire, Next, Earliest;
    CollectedKeeps(s, gc);
    CollectedStutters(s, gc);
    PopKeeps(Collected(s, gc), t.next, t.ops);
    PopRefines(Collected(s, gc), t.next, t.ops);
  }

  /**
   * Every simulation, with or without collection, is a run of the single queue of live events: actions fire in time
   * order, ordinary events first among equal times, cancelled events never act, and time does not move backwards.
   */
  lemma {:induction false} SimulationRefines(s: Sim, gc: bool, turns: seq<Turn>)
    requires Inv(s) && Simulates(s, gc, turns)
    ensures SpecRuns(Abs(s), Fired(s, gc, turns))
    ensures SpecAfter(Abs(s), Fired(s, gc, turns)) == Abs(After(s, gc, turns))
    ensures Inv(After(s, gc, turns))
    decreases |turns|
  {
    hide Inv, Abs, Iteration, Next, Fire, Earliest, Collected, Dead;
    if turns != [] {
      AbsThrew(s);
      IterationRefines(s, gc, turns[0]);
      SimulationRefines(Iteration(s, gc, turns[0]), gc, turns[1..]);
      var rest := Fired(Iteration(s, gc, turns[0]), gc, turns[1..]);
      assert ([turns[0]] + rest)[1..] == rest && [] + rest == rest;
    }
  }

  // ---- every run of the single queue is a simulation ----

  lemma NextExists(s: Sim)
    requires s.events + s.timeouts != {}
    ensures exists e :: Next(s, e)
  {
    if s.timeouts != {} { TopExists(s.timeouts); }
    if s.events != {} { TopExists(s.events); }
    if s.events == {} {
      var e :| Top(s.timeouts, e);
      assert Next(s, e);
    } else if s.timeouts == {} {
      var e :| Top(s.events, e);
      assert Next(s, e);
    } else {
      var e :| Top(s.timeouts, e);
      var f :| Top(s.events, f);
      assert Next(s, if f.fireTime <= e.fireTime then f else e);
    }
  }

  /** If the earliest live event cannot be taken next, whatever can is cancelled. */
  lemma OthersDead(s: Sim, e: Event, f: Event)
    requires Inv(s) && Earliest(Abs(s).live, e) && !Next(s, e) && Next(s, f)
    ensures Dead(s, f)
  {
  }

  /** The simulation gets rid of cancelled events until it can take e. */
  lemma {:induction false} Reach(s: Sim, gc: bool, fire: Turn) returns (turns: seq<Turn>)
    requires Inv(s) && !s.threw && Earliest(Abs(s).live, fire.next)
    ensures Simulates(s, gc, turns) && Fired(s, gc, turns) == [fire]
    decreases |s.events + s.timeouts|
  {
    hide Inv, Abs, Earliest, Fire, Next, RunOps;
    var c := Collected(s, gc);
    CollectedKeeps(s, gc);
    CollectedStutters(s, gc);
    if Next(c, fire.next) {
      turns := [fire];
      assert turns[1..] == [];
      LiveNotDead(s, fire.next);
    } else {
      LiveQueued(c, fire.next);
      NextExists(c);
      var d :| Next(c, d);
      OthersDead(c, fire.next, d);
      var turn := Turn(d, []);
      PopKeeps(c, d, []);
      IterationRefines(s, gc, turn);
      NextQueued(c, d);
      PopShrinks(c, d);
      CollectedSmaller(s, gc);
      var rest := Reach(Iteration(s, gc, turn), gc, fire);
      turns := [turn] + rest;
      assert turns[1..] == rest;
    }
  }

  lemma LiveNotDead(s: Sim, e: Event)
    requires Earliest(Abs(s).live, e)
    ensures !Dead(s, e)
  {
  }

  lemma LiveQueued(s: Sim, e: Event)
    requires Earliest(Abs(s).live, e)
    ensures e in s.events + s.timeouts
  {
  }

  lemma NextQueued(s: Sim, e: Event)
    requires Next(s, e)
    ensures e in s.events + s.timeouts
  {
  }

  lemma PopShrinks(s: Sim, d: Event)
    requires d in s.events + s.timeouts && Dead(s, d) && Inv(s) && Next(s, d)
    ensures !Pop(s, d, []).threw || s.threw
    ensures |Pop(s, d, []).events + Pop(s, d, []).timeouts| < |s.events + s.timeouts|
  {
  }

  lemma CollectedSmaller(s: Sim, gc: bool)
    ensures |Collected(s, gc).events + Collected(s, gc).timeouts| <= |s.events + s.timeouts|
  {
    var c := Collected(s, gc);
    var a, b := c.events + c.timeouts, s.events + s.timeouts;
    assert a <= b;
    assert b == a + (b - a);
    assert |a + (b - a)| == |a| + |b - a|;
  }

  lemma {:induction false} Joined(s: Sim, gc: bool, a: seq<Turn>, b: seq<Turn>)
    requires Simulates(s, gc, a) && Simulates(After(s, gc, a), gc, b)
    ensures Simulates(s, gc, a + b) && Fired(s, gc, a + b) == Fired(s, gc, a) + Fired(After(s, gc, a), gc, b)
    ensures After(s, gc, a + b) == After(After(s, gc, a), gc, b)
    decreases |a|
  {
    hide Iteration, Next, Dead, Collected;
    if a == [] {
      assert [] + b == b;
    } else {
      Joined(Iteration(s, gc, a[0]), gc, a[1..], b);
      OneTurn(s, gc, a[0], a[1..]);
      OneTurn(s, gc, a[0], a[1..] + b);
      assert a == [a[0]] + a[1..] && a + b == [a[0]] + (a[1..] + b);
      hide Simulates, Fired, After;
      AppendHead(if Dead(s, a[0].next) then [] else [a[0]], Fired(Iteration(s, gc, a[0]), gc, a[1..]),
                 Fired(After(s, gc, a), gc, b));
    }
  }

  lemma OneTurn(s: Sim, gc: bool, t: Turn, rest: seq<Turn>)
    ensures Simulates(s, gc, [t] + rest) <==>
      !s.threw && Next(Collected(s, gc), t.next) && Simulates(Iteration(s, gc, t), gc, rest)
    ensures Fired(s, gc, [t] + rest) == (if Dead(s, t.next) then [] else [t]) + Fired(Iteration(s, gc, t), gc, rest)
    ensures After(s, gc, [t] + rest) == After(Iteration(s, gc, t), gc, rest)
  {
  }

  lemma AppendHead(a: seq<Turn>, b: seq<Turn>, c: seq<Turn>)
    ensures a + b + c == a + (b + c)
  {
  }

  lemma {:induction false} Realise(s: Sim, gc: bool, fires: seq<Turn>) returns (turns: seq<Turn>)
    requires Inv(s) && SpecRuns(Abs(s), fires)
    ensures Simulates(s, gc, turns) && Fired(s, gc, turns) == fires
    decreases |fires|
  {
    hide Inv, Abs, Earliest, Fire, Next, Iteration, Collected, Dead;
    if fires == [] {
      turns := [];
    } else {
      AbsThrew(s);
      var first := Reach(s, gc, fires[0]);
      SimulationRefines(s, gc, first);
      var s' := After(s, gc, first);
      assert [fires[0]][1..] == [];
      assert SpecAfter(Abs(s), [fires[0]]) == Fire(Abs(s), fires[0].next, fires[0].ops);
      var rest := Realise(s', gc, fires[1..]);
      Joined(s, gc, first, rest);
      turns := first + rest;
      assert [fires[0]] + fires[1..] == fires;
    }
  }

  /**
   * Collection is invisible: whatever a simulation with (or without) collection does, one without (or with) it does
   * too, the same actions at the same times, ending with the same live events.
   */
  lemma CollectionInvisible(s: Sim, gc: bool, turns: seq<Turn>) returns (other: seq<Turn>)
    requires Inv(s) && Simulates(s, gc, turns)
    ensures Simulates(s, !gc, other) && Fired(s, !gc, other) == Fired(s, gc, turns)
    ensures After(s, !gc, other).trace == After(s, gc, turns).trace
    ensures Abs(After(s, !gc, other)).live == Abs(After(s, gc, turns)).live
  {
    hide Inv, Simulates, Fired, After, SpecRuns, SpecAfter;
    SimulationRefines(s, gc, turns);
    other := Realise(s, !gc, Fired(s, gc, turns));
    SimulationRefines(s, !gc, other);
  }

  /** The "time moved backwards" error never occurs: an iteration throws only if its action submits in the past. */
  lemma TimeNeverBackwards(s: Sim, gc: bool, turns: seq<Turn>, t: Turn)
    requires Inv(s) && Simulates(s, gc, turns) && Next(Collected(After(s, gc, turns), gc), t.next)
    ensures After(s, gc, turns).time <= t.next.fireTime
    ensures var trace := After(s, gc, turns).trace; forall j, k :: 0 <= j < k < |trace| ==> trace[j].1 <= trace[k].1
  {
    hide Next, Simulates, After, Pop, Fired, Abs, SpecRuns, SpecAfter;
    SimulationRefines(s, gc, turns);
    var c := Collected(After(s, gc, turns), gc);
    CollectedKeeps(After(s, gc, turns), gc);
    PopKeeps(c, t.next, t.ops);
  }
}
