/**
 * The aggregate phase with crashed meters (src/TreeAggregationState.cpp:22-40): nobody waits for a crashed child, and a
 * live meter reports the sum over the part of its subtree that is connected to it through live meters.
 */
module Crashes {
  import opened Crusader
  import opened Groups
  import opened TreeAggregation
  import opened TreeRun
  import opened Conservation

  // ---- how many children are waited for ----

  ghost function LiveChildren(i: int, groups: int, meters: int, failed: set<int>): set<int>
    requires Sane(groups, meters)
  {
    set c | 0 <= c < meters && Parent(c, groups, meters) == i && c !in failed
  }

  /** A meter waits for exactly as many messages as there are meters under it that it does not count as failed. */
  lemma NeededCounts(i: int, groups: int, meters: int, failed: set<int>)
    requires Sane(groups, meters) && 0 <= i < meters
    ensures Needed(Children(i, groups, meters), failed) == |LiveChildren(i, groups, meters, failed)|
  {
    hide Children, Parent;
    var c := Children(i, groups, meters);
    ChildrenDiffer(i, groups, meters);
    var l := if c.0 == -1 || c.0 in failed then {} else {c.0};
    var r := if c.1 == -1 || c.1 in failed then {} else {c.1};
    forall x ensures x in LiveChildren(i, groups, meters, failed) <==> x in l + r {
      if 0 <= x < meters { TreeIsConsistent(i, x, groups, meters); }
    }
    assert LiveChildren(i, groups, meters, failed) == l + r;
    assert |l + r| == |l| + |r|;
  }

  // ---- the live part of a subtree ----

  ghost function LiveSubtree(q: Setup, i: int): set<int>
    requires SetupOk(q) && (i == -1 || 0 <= i < q.meters)
    decreases if i == -1 then 0 else q.meters - i
  {
    if i == -1 then {} else {i} + LiveSubtree(q, Left(q, i)) + LiveSubtree(q, Right(q, i))
  }

  lemma {:induction false} SubtreeAbove(q: Setup, i: int, x: int)
    requires SetupOk(q) && 0 <= i < q.meters && x in LiveSubtree(q, i)
    ensures i <= x < q.meters && (x == i || x !in q.crashed)
    decreases q.meters - i
  {
    hide Left, Right, SetupOk;
    var l, r := Left(q, i), Right(q, i);
    if l != -1 && x in LiveSubtree(q, l) { SubtreeAbove(q, l, x); }
    if r != -1 && x in LiveSubtree(q, r) { SubtreeAbove(q, r, x); }
  }

  /** It is what is connected to i: besides i, the live meters whose parent belongs to it. */
  lemma {:induction false} SubtreeIsConnected(q: Setup, i: int, x: int)
    requires SetupOk(q) && 0 <= i < q.meters
    ensures x in LiveSubtree(q, i) <==>
              x == i || (0 <= x < q.meters && x !in q.crashed && Parent(x, q.groups, q.meters) in LiveSubtree(q, i))
    decreases q.meters - i
  {
    hide Left, Right, KnowsChildren, Parent;
    var l, r := Left(q, i), Right(q, i);
    var p := if 0 <= x < q.meters then Parent(x, q.groups, q.meters) else -1;
    if l != -1 { SubtreeIsConnected(q, l, x); ChildOf(q, i, l); }
    if r != -1 { SubtreeIsConnected(q, r, x); ChildOf(q, i, r); }
    if x in LiveSubtree(q, i) { SubtreeAbove(q, i, x); }
    if 0 <= x < q.meters && x !in q.crashed {
      ChildOf(q, i, x);
      if l != -1 && p in LiveSubtree(q, l) { SubtreeAbove(q, l, p); }
      if r != -1 && p in LiveSubtree(q, r) { SubtreeAbove(q, r, p); }
    }
  }

  lemma {:induction false} SidesApart(q: Setup, i: int, l: int, r: int, x: int)
    requires SetupOk(q) && 0 <= i < q.meters && l == Left(q, i) && r == Right(q, i) && l != -1 && r != -1
    requires x in LiveSubtree(q, l)
    ensures x !in LiveSubtree(q, r)
    decreases x - i
  {
    hide Left, Right, KnowsChildren, Parent, LiveSubtree;
    SubtreeAbove(q, l, x);
    SubtreeIsConnected(q, l, x);
    SubtreeIsConnected(q, r, x);
    ChildOf(q, i, l);
    ChildOf(q, i, r);
    if x in LiveSubtree(q, r) {
      var p := Parent(x, q.groups, q.meters);
      if x == l {
        assert p == i;
        SubtreeAbove(q, r, i);
      } else if x == r {
        assert p == i;
        SubtreeAbove(q, l, i);
      } else {
        SubtreeAbove(q, l, p);
        TreeIsConsistent(p, x, q.groups, q.meters);
        SidesApart(q, i, l, r, p);
      }
    }
  }

  // ---- sums over it ----

  ghost function SumOver(f: int -> int, s: set<int>): int {
    if s == {} then 0
    else
      NotEmpty(s);
      var x :| x in s;
      f(x) + SumOver(f, s - {x})
  }

  lemma {:induction false} SumAny(f: int -> int, s: set<int>, x: int)
    requires x in s
    ensures SumOver(f, s) == f(x) + SumOver(f, s - {x})
    decreases |s|
  {
    var y :| y in s && SumOver(f, s) == f(y) + SumOver(f, s - {y});
    if y != x {
      SumAny(f, s - {y}, x);
      SumAny(f, s - {x}, y);
      assert s - {y} - {x} == s - {x} - {y};
    }
  }

  lemma {:induction false} SumUnion(f: int -> int, a: set<int>, b: set<int>)
    requires a !! b
    ensures SumOver(f, a + b) == SumOver(f, a) + SumOver(f, b)
    decreases |a|
  {
    if a == {} {
      assert a + b == b;
    } else {
      NotEmpty(a);
      var x :| x in a;
      SumAny(f, a + b, x);
      SumAny(f, a, x);
      assert (a + b) - {x} == (a - {x}) + b;
      SumUnion(f, a - {x}, b);
    }
  }

  ghost function HeldEntry(q: Setup, k: nat): int -> int {
    x => HeldTotal(q, k, x)
  }

  ghost function HeldNumber(q: Setup): int -> int {
    x => 1 + HeldCount(q, x)
  }

  lemma SumSubtree(q: Setup, i: int, f: int -> int)
    requires SetupOk(q) && 0 <= i < q.meters
    ensures SumOver(f, LiveSubtree(q, i))
            == f(i) + SumOver(f, LiveSubtree(q, Left(q, i))) + SumOver(f, LiveSubtree(q, Right(q, i)))
  {
    hide Left, Right, SetupOk, Parent, SumOver;
    var l, r := Left(q, i), Right(q, i);
    var a, b := LiveSubtree(q, l), LiveSubtree(q, r);
    forall x | x in a ensures x !in b && x != i {
      SubtreeAbove(q, l, x);
      if r != -1 { SidesApart(q, i, l, r, x); }
    }
    forall x | x in b ensures x != i { SubtreeAbove(q, r, x); }
    SumUnion(f, a, b);
    SumUnion(f, {i}, a + b);
    assert {i} + (a + b) == LiveSubtree(q, i);
    SumOne(f, i);
  }

  lemma SumOne(f: int -> int, x: int)
    ensures SumOver(f, {x}) == f(x)
  {
    SumAny(f, {x}, x);
    assert {x} - {x} == {};
  }

  lemma {:induction false} ExpectedSums(q: Setup, i: int, k: nat)
    requires SetupOk(q) && (i == -1 || 0 <= i < q.meters) && k < q.length
    ensures EntryAt(q, k, i) == SumOver(HeldEntry(q, k), LiveSubtree(q, i))
    ensures CountAt(q, i) == SumOver(HeldNumber(q), LiveSubtree(q, i))
    decreases if i == -1 then 0 else q.meters - i
  {
    hide Left, Right, SetupOk, EntryAt, CountAt, LiveSubtree, HeldTotal, HeldCount;
    if i == -1 {
      NoEntry(q, k);
      NobodyThere(q);
    } else {
      ExpectedSums(q, Left(q, i), k);
      ExpectedSums(q, Right(q, i), k);
      ExpectedEntries(q, i, k);
      SumSubtree(q, i, HeldEntry(q, k));
      SumSubtree(q, i, HeldNumber(q));
    }
  }

  lemma NobodyThere(q: Setup)
    requires SetupOk(q)
    ensures LiveSubtree(q, -1) == {}
  {
  }

  /**
   * In every run that can go no further, a live meter has sent one message: its entries and its contributor count are
   * the sums over the live part of the meter's subtree.
   */
  lemma LiveMetersReport(q: Setup, ms: seq<Move>, i: int, k: nat) returns (report: Message)
    requires SetupOk(q) && IsRun(q, Begin(q), ms) && Quiet(q, After(q, Begin(q), ms))
    requires 0 <= i < q.meters && i !in q.crashed && k < q.length
    ensures After(q, Begin(q), ms).meters[i].sent == [report]
    ensures |report.body| == q.length && report.body[k] == SumOver(HeldEntry(q, k), LiveSubtree(q, i))
    ensures report.contributors == SumOver(HeldNumber(q), LiveSubtree(q, i))
  {
    hide IsRun, After, Quiet, Step, Expected, SetupOk, LiveSubtree, Left, Right;
    EveryMeterSendsOnce(q, ms, i);
    report := Expected(q, i);
    ExpectedEntries(q, i, k);
    ExpectedSums(q, i, k);
  }
}
