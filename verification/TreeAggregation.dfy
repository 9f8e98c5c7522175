/** Tree aggregation (src/TreeAggregationState.cpp, src/messaging/AggregationMessage.cpp) under any delivery order. */
module TreeAggregation {
  import opened Crusader
  import opened Groups

  // ---- values and sums ----

  /** An AggregationMessage: its value vector and its contributor count. */
  datatype Message = Message(body: seq<int>, contributors: int)

  /** What `values` adds to entry k: a single-valued query only uses entry 0. */
  function Weight(single: bool, k: nat, values: seq<int>): int {
    if k >= |values| || (single && k > 0) then 0 else values[k]
  }

  function Merge(single: bool, m: Message, values: seq<int>, contributors: int): Message {
    Message(seq(|m.body|, k requires 0 <= k < |m.body| => m.body[k] + Weight(single, k, values)),
            m.contributors + contributors)
  }

  /** Entry k summed over a set of contributions, in any order (TotalAny). */
  ghost function Total(single: bool, k: nat, s: set<Contribution>): int {
    if s == {} then 0
    else
      var c :| c in s;
      Weight(single, k, c.tuple.values) + Total(single, k, s - {c})
  }

  lemma {:induction false} TotalAny(single: bool, k: nat, s: set<Contribution>, c: Contribution)
    requires c in s
    ensures Total(single, k, s) == Weight(single, k, c.tuple.values) + Total(single, k, s - {c})
    decreases |s|
  {
    hide Weight;
    var d :| d in s && Total(single, k, s) == Weight(single, k, d.tuple.values) + Total(single, k, s - {d});
    if d != c {
      TotalAny(single, k, s - {d}, c);
      TotalAny(single, k, s - {c}, d);
      assert s - {d} - {c} == s - {c} - {d};
    }
  }

  ghost function AddContributions(single: bool, m: Message, s: set<Contribution>): Message {
    Message(seq(|m.body|, k requires 0 <= k < |m.body| => m.body[k] + Total(single, k, s)), m.contributors + |s|)
  }

  lemma AddOne(single: bool, m: Message, s: set<Contribution>, c: Contribution)
    requires c in s
    ensures AddContributions(single, m, s) == AddContributions(single, Merge(single, m, c.tuple.values, 1), s - {c})
  {
    hide Weight;
    forall k: nat | k < |m.body|
      ensures Total(single, k, s) == Weight(single, k, c.tuple.values) + Total(single, k, s - {c})
    {
      TotalAny(single, k, s, c);
    }
  }

  lemma AddNone(single: bool, m: Message)
    ensures AddContributions(single, m, {}) == m
  {
  }

  lemma MergeCommutes(single: bool, m: Message, a: Message, b: Message)
    ensures Merge(single, Merge(single, m, a.body, a.contributors), b.body, b.contributors)
         == Merge(single, Merge(single, m, b.body, b.contributors), a.body, a.contributors)
  {
  }

  lemma OnlyHeadCounts(m: Message, values: seq<int>, n: int)
    requires |values| > 0
    ensures Merge(true, m, values, n) == Merge(true, m, [values[0]], n)
  {
  }

  // ---- the objects ----

  class AggregationMessage {
    var body: seq<int>
    var contributors: int

    ghost function View(): Message
      reads this
    {
      Message(body, contributors)
    }

    /** A new message already counts one contributor. */
    constructor (length: nat)
      ensures View() == Empty(length)
    {
      body := seq(length, _ => 0);
      contributors := 1;
    }

    method AddValue(value: int, contributors: int)
      requires |body| > 0
      modifies this
      ensures View() == Merge(true, old(View()), [value], contributors)
    {
      body := body[0 := body[0] + value];
      this.contributors := this.contributors + contributors;
    }

    method AddValues(values: seq<int>, contributors: int)
      requires |values| == |body|
      modifies this
      ensures View() == Merge(false, old(View()), values, contributors)
    {
      var k := 0;
      while k < |body|
        invariant |body| == |values| && 0 <= k <= |body| && this.contributors == old(this.contributors)
        invariant forall j :: 0 <= j < |body| ==> body[j] == if j < k then old(body)[j] + values[j] else old(body)[j]
      {
        body := body[k := body[k] + values[k]];
        k := k + 1;
      }
      this.contributors := this.contributors + contributors;
    }
  }

  function Empty(length: nat): Message {
    Message(seq(length, _ => 0), 1)
  }

  /** TreeAggregationState's fields as a value. */
  datatype Tree = Tree(received: int, needed: int, message: Message)

  function Needed(children: (int, int), failed: set<int>): int {
    (if children.0 == -1 || children.0 in failed then 0 else 1) +
    (if children.1 == -1 || children.1 in failed then 0 else 1)
  }

  function NewTree(i: int, groups: int, meters: int, length: nat, failed: set<int>): Tree
    requires Sane(groups, meters)
  {
    Tree(0, Needed(Children(i, groups, meters), failed), Empty(length))
  }

  function TreeHandle(single: bool, t: Tree, m: Message): Tree {
    t.(message := Merge(single, t.message, m.body, m.contributors), received := t.received + 1)
  }

  predicate DoneReceiving(t: Tree) {
    t.received >= t.needed
  }

  class TreeAggregationState {
    const nodeId: int
    const groups: int
    const meters: int
    const single: bool
    var initialized: bool
    var childrenReceivedFrom: int
    var childrenNeeded: int
    var intermediate: AggregationMessage?

    constructor (nodeId: int, groups: int, meters: int, single: bool)
      requires Sane(groups, meters)
      ensures this.nodeId == nodeId && this.groups == groups && this.meters == meters && this.single == single
      ensures !initialized
    {
      this.nodeId, this.groups, this.meters, this.single := nodeId, groups, meters, single;
      initialized, childrenReceivedFrom, childrenNeeded, intermediate := false, 0, 2, null;
    }

    ghost predicate Valid()
      reads this
    {
      Sane(groups, meters) && (initialized ==> intermediate != null)
    }

    ghost function State(): Tree
      requires Valid() && initialized
      reads this, intermediate
    {
      Tree(childrenReceivedFrom, childrenNeeded, intermediate.View())
    }

    method Initialize(length: nat, failed: set<int>)
      requires Valid()
      modifies this
      ensures Valid() && initialized && fresh(intermediate)
      ensures State() == NewTree(nodeId, groups, meters, length, failed)
    {
      intermediate := new AggregationMessage(length);
      childrenReceivedFrom := 0;
      var children := Children(nodeId, groups, meters);
      childrenNeeded := 2;
      if children.0 == -1 || children.0 in failed {
        childrenNeeded := childrenNeeded - 1;
      }
      if children.1 == -1 || children.1 in failed {
        childrenNeeded := childrenNeeded - 1;
      }
      initialized := true;
    }

    method DoneReceivingFromChildren() returns (done: bool)
      requires Valid() && initialized
      ensures done == DoneReceiving(State())
    {
      done := childrenReceivedFrom >= childrenNeeded;
    }

    method HandleMessage(m: Message)
      requires Valid() && initialized && |m.body| == |intermediate.body| > 0
      modifies this, intermediate
      ensures Valid() && initialized && intermediate == old(intermediate)
      ensures State() == TreeHandle(single, old(State()), m)
    {
      if single {
        OnlyHeadCounts(intermediate.View(), m.body, m.contributors);
        intermediate.AddValue(m.body[0], m.contributors);
      } else {
        intermediate.AddValues(m.body, m.contributors);
      }
      childrenReceivedFrom := childrenReceivedFrom + 1;
    }

    /** Adds every accepted contribution once and says what is sent to whom; the parent of the root is the utility, -1. */
    method ComputeAndSendAggregate(accepted: set<Contribution>) returns (sent: Message, to: int)
      requires Valid() && initialized && |intermediate.body| > 0
      requires forall c :: c in accepted ==> |c.tuple.values| == |intermediate.body|
      modifies intermediate
      ensures State() == old(State()).(message := sent)
      ensures sent == AddContributions(single, old(State()).message, accepted)
      ensures to == Parent(nodeId, groups, meters)
    {
      hide Merge, AddContributions, Parent;
      var todo := accepted;
      ghost var length := |intermediate.body|;
      while todo != {}
        invariant todo <= accepted && |intermediate.body| == length > 0
        invariant State() == old(State()).(message := intermediate.View())
        invariant AddContributions(single, intermediate.View(), todo)
               == AddContributions(single, old(intermediate.View()), accepted)
        decreases todo
      {
        var c :| c in todo;
        AddOne(single, intermediate.View(), todo, c);
        MergeLength(single, intermediate.View(), c.tuple.values, 1);
        if single {
          OnlyHeadCounts(intermediate.View(), c.tuple.values, 1);
          intermediate.AddValue(c.tuple.values[0], 1);
        } else {
          intermediate.AddValues(c.tuple.values, 1);
        }
        todo := todo - {c};
      }
      AddNone(single, intermediate.View());
      sent := Message(intermediate.body, intermediate.contributors);
      to := Parent(nodeId, groups, meters);
    }

    /** send_aggregate_if_done of the three protocols. */
    method SendAggregateIfDone(accepted: set<Contribution>) returns (done: bool, sent: Message, to: int)
      requires Valid() && initialized && |intermediate.body| > 0
      requires forall c :: c in accepted ==> |c.tuple.values| == |intermediate.body|
      modifies intermediate
      ensures done == DoneReceiving(old(State()))
      ensures State() == if done then old(State()).(message := sent) else old(State())
      ensures done ==>
                sent == AddContributions(single, old(State()).message, accepted) && to == Parent(nodeId, groups, meters)
    {
      sent, to := Message([], 0), -1;
      done := DoneReceivingFromChildren();
      if done {
        sent, to := ComputeAndSendAggregate(accepted);
      }
    }
  }

  lemma MergeLength(single: bool, m: Message, values: seq<int>, n: int)
    ensures |Merge(single, m, values, n).body| == |m.body|
  {
  }
}
