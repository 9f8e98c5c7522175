/** From contributions to the utility: every group's root reports the sum over all meters. */
module Conservation {
  import opened Crusader
  import opened Groups
  import opened TreeAggregation
  import opened TreeRun

  // ---- sums ----

  ghost function SumRange(f: int -> int, lo: int, hi: int): int
    decreases hi - lo
  {
    if lo >= hi then 0 else SumRange(f, lo, hi - 1) + f(hi - 1)
  }

  lemma {:induction false} SumFirst(f: int -> int, lo: int, hi: int)
    requires lo < hi
    ensures SumRange(f, lo, hi) == f(lo) + SumRange(f, lo + 1, hi)
    decreases hi - lo
  {
    if lo + 1 < hi {
      SumFirst(f, lo, hi - 1);
    } else {
      assert SumRange(f, lo, lo) == 0;
    }
  }

  function Min(a: int, b: int): int { if a < b then a else b }

  ghost predicate NodeSums(w: int -> int, s: int -> int, size: int, x: int) {
    s(x) == w(x) + (if 2 * x + 1 < size then s(2 * x + 1) else 0) + (if 2 * x + 2 < size then s(2 * x + 2) else 0)
  }

  ghost predicate HeapSums(w: int -> int, s: int -> int, size: int) {
    forall x {:trigger NodeSums(w, s, size, x)} :: 0 <= x < size ==> NodeSums(w, s, size, x)
  }

  /** Nodes below k, plus the subtrees hanging from them, make up the whole heap. */
  lemma {:induction false} HeapFrontier(w: int -> int, s: int -> int, size: int, k: int)
    requires HeapSums(w, s, size) && 0 <= k <= size && size > 0
    ensures s(0) == SumRange(w, 0, k) + SumRange(s, k, Min(2 * k + 1, size))
    decreases k
  {
    if k == 0 {
      assert SumRange(s, 0, 1) == SumRange(s, 0, 0) + s(0);
    } else {
      var x := k - 1;
      HeapFrontier(w, s, size, x);
      assert NodeSums(w, s, size, x);
      SumFirst(s, x, Min(2 * x + 1, size));
      if 2 * x + 2 < size {
        assert SumRange(s, k, 2 * x + 3) == SumRange(s, k, 2 * x + 2) + s(2 * x + 2);
        assert SumRange(s, k, 2 * x + 2) == SumRange(s, k, 2 * x + 1) + s(2 * x + 1);
      } else if 2 * x + 1 < size {
        assert SumRange(s, k, 2 * x + 2) == SumRange(s, k, 2 * x + 1) + s(2 * x + 1);
      }
    }
  }

  lemma HeapTotal(w: int -> int, s: int -> int, size: int)
    requires HeapSums(w, s, size) && size > 0
    ensures s(0) == SumRange(w, 0, size)
  {
    HeapFrontier(w, s, size, size);
  }

  lemma {:induction false} TotalUnion(single: bool, k: nat, a: set<Contribution>, b: set<Contribution>)
    requires a !! b
    ensures Total(single, k, a + b) == Total(single, k, a) + Total(single, k, b)
    decreases |b|
  {
    if b == {} {
      assert a + b == a;
    } else {
      var c :| c in b;
      TotalAny(single, k, b, c);
      TotalAny(single, k, a + b, c);
      assert a + b - {c} == a + (b - {c});
      TotalUnion(single, k, a, b - {c});
    }
  }

  // ---- who holds what ----

  /** The contributions to one query and the proxies they name. */
  ghost predicate Collected(q: Setup, cs: seq<Contribution>) {
    && SetupOk(q) && |cs| == q.meters && q.crashed == {}
    && (forall j :: 0 <= j < |cs| ==> ProxiesOk(cs[j].tuple.proxies, j, q.groups, q.meters))
    && (forall i :: 0 <= i < q.meters ==> q.held[i] == HeldBy(q, cs, i))
  }

  /** Every contribution has reached its chosen proxies and no one else. */
  ghost function HeldBy(q: Setup, cs: seq<Contribution>, i: int): set<Contribution>
    requires SetupOk(q)
  {
    set c | c in cs && |c.tuple.proxies| == q.groups && 0 <= i < q.meters && Names(c, GroupOf(q, i), i)
  }

  function GroupOf(q: Setup, i: int): (g: int)
    requires SetupOk(q) && 0 <= i < q.meters
    ensures 0 <= g < q.groups
  {
    GroupsPartition(i, 0, q.groups, q.meters);
    GroupFor(i, q.groups, q.meters)
  }

  predicate Names(c: Contribution, g: int, i: int) {
    0 <= g < |c.tuple.proxies| && c.tuple.proxies[g] == i
  }

  /** v is the contribution of a meter that named i as a proxy. */
  ghost predicate NamedBy(cs: seq<Contribution>, i: int, v: Contribution) {
    exists j :: 0 <= j < |cs| && v == cs[j] && i in cs[j].tuple.proxies
  }

  lemma NamesIff(q: Setup, c: Contribution, j: int, i: int)
    requires SetupOk(q) && ProxiesOk(c.tuple.proxies, j, q.groups, q.meters) && 0 <= i < q.meters
    ensures i in c.tuple.proxies <==> Names(c, GroupOf(q, i), i)
    ensures |c.tuple.proxies| == q.groups
  {
    hide KnowsChildren, GroupFor, First, Size, Sane;
    if i in c.tuple.proxies {
      var g :| 0 <= g < |c.tuple.proxies| && c.tuple.proxies[g] == i;
      assert InGroup(c.tuple.proxies[g], g, q.groups, q.meters);
      GroupsPartition(i, g, q.groups, q.meters);
    }
  }

  /** Holding the contributions that name one is what is assumed of the aggregate phase's start. */
  lemma CollectedIff(q: Setup, cs: seq<Contribution>)
    requires SetupOk(q) && |cs| == q.meters && q.crashed == {}
    requires forall j :: 0 <= j < |cs| ==> ProxiesOk(cs[j].tuple.proxies, j, q.groups, q.meters)
    requires forall i: nat, v :: i < q.meters ==> (v in q.held[i] <==> NamedBy(cs, i, v))
    ensures Collected(q, cs)
  {
    hide KnowsChildren, Sane, GroupOf, Names, ProxiesOk;
    forall i: nat | i < q.meters ensures q.held[i] == HeldBy(q, cs, i) {
      forall v ensures v in q.held[i] <==> v in HeldBy(q, cs, i) {
        assert v in q.held[i] <==> NamedBy(cs, i, v);
        forall j | 0 <= j < |cs| && v == cs[j]
          ensures |v.tuple.proxies| == q.groups
          ensures i in v.tuple.proxies <==> Names(v, GroupOf(q, i), i)
        {
          NamesIff(q, v, j, i);
        }
      }
    }
  }

  ghost function Everything(cs: seq<Contribution>): set<Contribution> {
    set c | c in cs
  }

  /** What the first n members of group g hold together. */
  ghost function HeldBelow(q: Setup, cs: seq<Contribution>, g: int, n: int): set<Contribution>
    requires SetupOk(q)
  {
    set c | c in cs && 0 <= g < |c.tuple.proxies|
            && First(g, q.groups, q.meters) <= c.tuple.proxies[g] < First(g, q.groups, q.meters) + n
  }

  lemma HeldBelowGrows(q: Setup, cs: seq<Contribution>, g: int, n: int)
    requires Collected(q, cs) && 0 <= g < q.groups && 0 <= n < Size(g, q.groups, q.meters)
    ensures var i := First(g, q.groups, q.meters) + n;
            && 0 <= i < q.meters && GroupFor(i, q.groups, q.meters) == g
            && HeldBelow(q, cs, g, n + 1) == HeldBelow(q, cs, g, n) + q.held[i]
            && HeldBelow(q, cs, g, n) !! q.held[i]
  {
    hide First, Size, GroupFor;
    var i := First(g, q.groups, q.meters) + n;
    GroupsAreConsecutive(g, q.groups, q.meters);
    GroupsPartition(i, g, q.groups, q.meters);
    assert q.held[i] == HeldBy(q, cs, i);
    forall c | c in cs ensures |c.tuple.proxies| == q.groups {
      var j :| 0 <= j < |cs| && cs[j] == c;
    }
    assert HeldBelow(q, cs, g, n + 1) == HeldBelow(q, cs, g, n) + q.held[i];
  }

  lemma HeldByAll(q: Setup, cs: seq<Contribution>, g: int)
    requires Collected(q, cs) && 0 <= g < q.groups
    ensures HeldBelow(q, cs, g, Size(g, q.groups, q.meters)) == Everything(cs)
  {
  }

  // ---- the group's tree as a heap ----

  ghost function EntryAt(q: Setup, k: nat, i: int): int
    requires SetupOk(q)
  {
    if 0 <= i < q.meters && k < |Expected(q, i).body| then Expected(q, i).body[k] else 0
  }

  ghost function CountAt(q: Setup, i: int): int
    requires SetupOk(q)
  {
    if 0 <= i < q.meters then Expected(q, i).contributors else 0
  }

  ghost function HeldTotal(q: Setup, k: nat, i: int): int {
    if 0 <= i < |q.held| then Total(q.single, k, q.held[i]) else 0
  }

  ghost function HeldCount(q: Setup, i: int): int {
    if 0 <= i < |q.held| then |q.held[i]| else 0
  }

  lemma {:induction false} TotalZero(k: nat, s: set<Contribution>)
    requires k > 0
    ensures Total(true, k, s) == 0
    decreases |s|
  {
    if s != {} {
      var c :| c in s;
      TotalAny(true, k, s, c);
      TotalZero(k, s - {c});
    }
  }

  /** A subtree's message is its meter's own holdings plus its children's messages, entry by entry. */
  lemma {:induction false} ExpectedEntries(q: Setup, i: int, k: nat)
    requires SetupOk(q) && 0 <= i < q.meters && k < q.length
    ensures |Expected(q, i).body| == q.length
    ensures q.single && k > 0 ==> EntryAt(q, k, i) == 0
    ensures EntryAt(q, k, i) == HeldTotal(q, k, i) + EntryAt(q, k, Left(q, i)) + EntryAt(q, k, Right(q, i))
    ensures CountAt(q, i) == 1 + HeldCount(q, i) + CountAt(q, Left(q, i)) + CountAt(q, Right(q, i))
    decreases q.meters - i
  {
    hide Left, Right, Total;
    var l, r := Left(q, i), Right(q, i);
    if l != -1 { ExpectedEntries(q, l, k); }
    if r != -1 { ExpectedEntries(q, r, k); }
    if q.single && k > 0 { TotalZero(k, q.held[i]); }
    var one := MergeChild(q, Empty(q.length), l);
    var two := MergeChild(q, one, r);
    MergedEntry(q, Empty(q.length), l, k);
    MergedEntry(q, one, r, k);
  }

  lemma MergedEntry(q: Setup, m: Message, c: int, k: nat)
    requires SetupOk(q) && (c == -1 || 0 <= c < q.meters) && |m.body| == q.length && k < q.length
    requires c != -1 ==> |Expected(q, c).body| == q.length && (q.single && k > 0 ==> EntryAt(q, k, c) == 0)
    ensures |MergeChild(q, m, c).body| == q.length
    ensures MergeChild(q, m, c).body[k] == m.body[k] + EntryAt(q, k, c)
    ensures MergeChild(q, m, c).contributors == m.contributors + CountAt(q, c)
  {
  }

  /** Relative to the group's first ID, children sit where a binary heap puts them. */
  lemma ChildrenAreHeap(q: Setup, g: int, x: int)
    requires SetupOk(q) && q.crashed == {} && 0 <= g < q.groups && 0 <= x < Size(g, q.groups, q.meters)
    ensures var first := First(g, q.groups, q.meters);
            var size := Size(g, q.groups, q.meters);
            && 0 <= first + x < q.meters
            && Left(q, first + x) == (if 2 * x + 1 < size then first + 2 * x + 1 else -1)
            && Right(q, first + x) == (if 2 * x + 2 < size then first + 2 * x + 2 else -1)
  {
    hide First, Size, GroupFor;
    GroupsAreConsecutive(g, q.groups, q.meters);
    GroupsPartition(First(g, q.groups, q.meters) + x, g, q.groups, q.meters);
  }

  ghost function Entries(q: Setup, k: nat, first: int): int -> int
    requires SetupOk(q)
  {
    x => EntryAt(q, k, first + x)
  }

  ghost function Counts(q: Setup, first: int): int -> int
    requires SetupOk(q)
  {
    x => CountAt(q, first + x)
  }

  ghost function OwnEntries(q: Setup, k: nat, first: int): int -> int {
    x => HeldTotal(q, k, first + x)
  }

  ghost function OwnCounts(q: Setup, first: int): int -> int {
    x => 1 + HeldCount(q, first + x)
  }

  lemma GroupNode(q: Setup, g: int, k: nat, x: int)
    requires SetupOk(q) && q.crashed == {} && 0 <= g < q.groups && k < q.length
    requires 0 <= x < Size(g, q.groups, q.meters)
    ensures var first, size := First(g, q.groups, q.meters), Size(g, q.groups, q.meters);
            && NodeSums(OwnEntries(q, k, first), Entries(q, k, first), size, x)
            && NodeSums(OwnCounts(q, first), Counts(q, first), size, x)
  {
    hide First, Size, EntryAt, CountAt, HeldTotal, HeldCount, Left, Right, SetupOk;
    ChildrenAreHeap(q, g, x);
    ExpectedEntries(q, First(g, q.groups, q.meters) + x, k);
    NoEntry(q, k);
  }

  lemma RootEntry(q: Setup, g: int, k: nat)
    requires SetupOk(q) && q.crashed == {} && 0 <= g < q.groups && k < q.length
    ensures var first, size := First(g, q.groups, q.meters), Size(g, q.groups, q.meters);
            && EntryAt(q, k, first) == SumRange(OwnEntries(q, k, first), 0, size)
            && CountAt(q, first) == SumRange(OwnCounts(q, first), 0, size)
  {
    GroupsAreConsecutive(g, q.groups, q.meters);
    hide First, Size, EntryAt, CountAt, HeldTotal, HeldCount, NodeSums, SumRange, SetupOk;
    var first, size := First(g, q.groups, q.meters), Size(g, q.groups, q.meters);
    forall x | 0 <= x < size
      ensures NodeSums(OwnEntries(q, k, first), Entries(q, k, first), size, x)
      ensures NodeSums(OwnCounts(q, first), Counts(q, first), size, x)
    {
      GroupNode(q, g, k, x);
    }
    hide OwnEntries, OwnCounts, Entries, Counts;
    HeapTotal(OwnEntries(q, k, first), Entries(q, k, first), size);
    HeapTotal(OwnCounts(q, first), Counts(q, first), size);
    AtRoot(q, k, first);
  }

  lemma AtRoot(q: Setup, k: nat, first: int)
    requires SetupOk(q)
    ensures Entries(q, k, first)(0) == EntryAt(q, k, first) && Counts(q, first)(0) == CountAt(q, first)
  {
    hide SetupOk, EntryAt, CountAt;
    assert first + 0 == first;
  }

  lemma NoEntry(q: Setup, k: nat)
    requires SetupOk(q)
    ensures EntryAt(q, k, -1) == 0 && CountAt(q, -1) == 0
  {
  }

  lemma {:induction false} GroupHolds(q: Setup, cs: seq<Contribution>, g: int, n: int, k: nat)
    requires SetupOk(q) && Collected(q, cs) && 0 <= g < q.groups && 0 <= n <= Size(g, q.groups, q.meters)
    ensures var first := First(g, q.groups, q.meters);
            && SumRange(OwnEntries(q, k, first), 0, n) == Total(q.single, k, HeldBelow(q, cs, g, n))
            && SumRange(OwnCounts(q, first), 0, n) == n + |HeldBelow(q, cs, g, n)|
    decreases n
  {
    hide First, Size, Collected, GroupFor, HeldBelow;
    var first := First(g, q.groups, q.meters);
    if n == 0 {
      HeldBelowNone(q, cs, g);
    } else {
      GroupHolds(q, cs, g, n - 1, k);
      HeldBelowGrows(q, cs, g, n - 1);
      SumsGrow(q, k, first, n - 1);
      var own := q.held[first + (n - 1)];
      TotalUnion(q.single, k, HeldBelow(q, cs, g, n - 1), own);
      DisjointSize(HeldBelow(q, cs, g, n - 1), own);
    }
  }

  lemma HeldBelowNone(q: Setup, cs: seq<Contribution>, g: int)
    requires SetupOk(q)
    ensures HeldBelow(q, cs, g, 0) == {}
  {
  }

  lemma SumsGrow(q: Setup, k: nat, first: int, n: int)
    requires 0 <= n && 0 <= first + n < |q.held|
    ensures SumRange(OwnEntries(q, k, first), 0, n + 1)
         == SumRange(OwnEntries(q, k, first), 0, n) + Total(q.single, k, q.held[first + n])
    ensures SumRange(OwnCounts(q, first), 0, n + 1) == SumRange(OwnCounts(q, first), 0, n) + 1 + |q.held[first + n]|
  {
    var i := first + n;
    assert HeldTotal(q, k, i) == Total(q.single, k, q.held[i]);
    assert HeldCount(q, i) == |q.held[i]|;
    assert OwnEntries(q, k, first)(n) == HeldTotal(q, k, i);
    assert OwnCounts(q, first)(n) == 1 + HeldCount(q, i);
  }

  lemma DisjointSize(a: set<Contribution>, b: set<Contribution>)
    requires a !! b
    ensures |a + b| == |a| + |b|
  {
  }

  // ---- distinct contributions ----

  ghost predicate Distinct(cs: seq<Contribution>) {
    forall i, j :: 0 <= i < j < |cs| ==> cs[i] != cs[j]
  }

  /** Meter j's value for entry k; a single-valued query has entry 0 alone. */
  ghost function WeightOf(single: bool, k: nat, cs: seq<Contribution>, j: int): int {
    if 0 <= j < |cs| && k < |cs[j].tuple.values| && (k == 0 || !single) then cs[j].tuple.values[k] else 0
  }

  /** Entry k summed over all meters, one by one. */
  ghost function SumOfMeters(single: bool, k: nat, cs: seq<Contribution>): int {
    SumRange(j => WeightOf(single, k, cs, j), 0, |cs|)
  }

  lemma {:induction false} SumRangeSame(f: int -> int, g: int -> int, lo: int, hi: int)
    requires forall j :: lo <= j < hi ==> f(j) == g(j)
    ensures SumRange(f, lo, hi) == SumRange(g, lo, hi)
    decreases hi - lo
  {
    if lo < hi { SumRangeSame(f, g, lo, hi - 1); }
  }

  lemma EverythingGrows(cs: seq<Contribution>, c: Contribution)
    ensures Everything(cs + [c]) == Everything(cs) + {c}
    ensures Distinct(cs + [c]) <==> Distinct(cs) && c !in Everything(cs)
  {
    var all := cs + [c];
    if Distinct(all) {
      forall i, j | 0 <= i < j < |cs| ensures cs[i] != cs[j] {
        assert all[i] == cs[i] && all[j] == cs[j];
      }
      assert forall i :: 0 <= i < |cs| ==> cs[i] == all[i] && all[i] != all[|cs|];
    }
  }

  lemma SumOfMetersGrows(single: bool, k: nat, cs: seq<Contribution>, c: Contribution)
    ensures SumOfMeters(single, k, cs + [c]) == SumOfMeters(single, k, cs) + Weight(single, k, c.tuple.values)
  {
    var all := cs + [c];
    var f := (j: int) => WeightOf(single, k, all, j);
    SumRangeSame(f, j => WeightOf(single, k, cs, j), 0, |cs|);
    assert SumRange(f, 0, |cs| + 1) == SumRange(f, 0, |cs|) + f(|cs|);
  }

  /** The set counts every meter exactly when the contributions differ, and then sums them all. */
  lemma {:induction false} SetOfDistinct(single: bool, k: nat, cs: seq<Contribution>)
    ensures |Everything(cs)| <= |cs|
    ensures |Everything(cs)| == |cs| <==> Distinct(cs)
    ensures Distinct(cs) ==> Total(single, k, Everything(cs)) == SumOfMeters(single, k, cs)
    decreases |cs|
  {
    if cs == [] {
      assert Everything(cs) == {};
    } else {
      hide Weight, Everything, Distinct, SumOfMeters;
      var n := |cs| - 1;
      var before, c := cs[..n], cs[n];
      SetOfDistinct(single, k, before);
      assert cs == before + [c];
      EverythingGrows(before, c);
      SumOfMetersGrows(single, k, before, c);
      var s := Everything(before);
      if c in s {
        assert s + {c} == s;
      } else {
        TotalAny(single, k, s + {c}, c);
        assert s + {c} - {c} == s;
      }
    }
  }

  // ---- the result ----

  lemma CollectedSetup(q: Setup, cs: seq<Contribution>)
    requires Collected(q, cs)
    ensures SetupOk(q) && q.crashed == {}
  {
  }

  /**
   * In every run that can go no further, group g's root sends the utility one message: the sum over the set of
   * contributions, the same in every group, and the number of contributions plus the group's size.
   */
  lemma RootReports(q: Setup, cs: seq<Contribution>, ms: seq<Move>, g: int, k: nat) returns (report: Message)
    requires Collected(q, cs) && IsRun(q, Begin(q), ms) && Quiet(q, After(q, Begin(q), ms))
    requires 0 <= g < q.groups && k < q.length
    ensures var root := First(g, q.groups, q.meters);
            && 0 <= root < q.meters && Parent(root, q.groups, q.meters) == -1
            && After(q, Begin(q), ms).meters[root].sent == [report]
    ensures |report.body| == q.length && report.body[k] == Total(q.single, k, Everything(cs))
    ensures report.contributors == |Everything(cs)| + Size(g, q.groups, q.meters)
  {
    hide First, Size, IsRun, After, Quiet, Step, Expected, GroupFor, Collected;
    var root := First(g, q.groups, q.meters);
    GroupsAreConsecutive(g, q.groups, q.meters);
    GroupsPartition(root, g, q.groups, q.meters);
    assert SetupOk(q) && q.crashed == {} by { CollectedSetup(q, cs); }
    EveryMeterSendsOnce(q, ms, root);
    report := Expected(q, root);
    ExpectedEntries(q, root, k);
    RootEntry(q, g, k);
    GroupHolds(q, cs, g, Size(g, q.groups, q.meters), k);
    HeldByAll(q, cs, g);
  }

  /**
   * Conservation: the contributor count is the number of meters plus the group's size exactly when the
   * contributions are pairwise distinct, and then entry k is the sum over all meters.
   */
  lemma EndToEnd(q: Setup, cs: seq<Contribution>, ms: seq<Move>, g: int, k: nat) returns (report: Message)
    requires Collected(q, cs) && IsRun(q, Begin(q), ms) && Quiet(q, After(q, Begin(q), ms))
    requires 0 <= g < q.groups && k < q.length
    ensures var root := First(g, q.groups, q.meters);
            0 <= root < q.meters && After(q, Begin(q), ms).meters[root].sent == [report]
    ensures report.contributors == q.meters + Size(g, q.groups, q.meters) <==> Distinct(cs)
    ensures Distinct(cs) ==> |report.body| == q.length && report.body[k] == SumOfMeters(q.single, k, cs)
  {
    hide First, Size, IsRun, After, Quiet, SumOfMeters, Distinct, Parent;
    report := RootReports(q, cs, ms, g, k);
    SetOfDistinct(q.single, k, cs);
  }
}
