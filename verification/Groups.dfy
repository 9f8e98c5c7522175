/** Aggregation groups, proxy choice and the trees inside the groups (src/util/Overlay.cpp:78-196). */
module Groups {
  import opened Arith
  import opened PathFinder

  // ---- group sizes ----

  function StandardSize(groups: int, meters: int): int
    requires groups > 0
  {
    meters / groups
  }

  function SecondLastSize(groups: int, meters: int): int
    requires groups > 0
  {
    var size := StandardSize(groups, meters);
    var leftover := meters - (groups - 1) * size;
    (size + leftover) / 2
  }

  /** Enough meters for groups of at least one ID. */
  predicate Sane(groups: int, meters: int) {
    1 <= groups <= meters
  }

  /** Where each group begins and how many IDs it has; only the last two differ from the standard size. */
  function First(g: int, groups: int, meters: int): int
    requires groups > 0
  {
    var size := StandardSize(groups, meters);
    if g == groups - 1 then (groups - 2) * size + SecondLastSize(groups, meters) else g * size
  }

  function Size(g: int, groups: int, meters: int): int
    requires groups > 0
  {
    if g == groups - 1 then meters - First(g, groups, meters)
    else if g == groups - 2 then SecondLastSize(groups, meters)
    else StandardSize(groups, meters)
  }

  predicate InGroup(i: int, g: int, groups: int, meters: int)
    requires groups > 0
  {
    First(g, groups, meters) <= i < First(g, groups, meters) + Size(g, groups, meters)
  }

  function GroupFor(i: int, groups: int, meters: int): int
    requires Sane(groups, meters)
  {
    SizesPositive(groups, meters);
    var size := StandardSize(groups, meters);
    var g := i / size;
    if g >= groups - 2 then
      if i >= (groups - 2) * size && i < (groups - 2) * size + SecondLastSize(groups, meters) then groups - 2
      else groups - 1
    else g
  }

  lemma Multiples(a: int, b: int, size: int)
    requires size >= 1
    ensures (a + 1) * size == a * size + size
    ensures a < b ==> a * size + size <= b * size
    ensures 0 <= a ==> 0 <= a * size
  {
  }

  lemma SizesPositive(groups: int, meters: int)
    requires Sane(groups, meters)
    ensures var size := StandardSize(groups, meters);
            var last := meters - (groups - 2) * size - SecondLastSize(groups, meters);
            1 <= size <= SecondLastSize(groups, meters) <= last <= SecondLastSize(groups, meters) + 1
  {
  }

  /** The groups are consecutive, cover [0, meters), have at least the standard size, and the last two are even. */
  lemma GroupsAreConsecutive(g: int, groups: int, meters: int)
    requires Sane(groups, meters) && 0 <= g < groups
    ensures First(0, groups, meters) == 0
    ensures g + 1 < groups ==> First(g, groups, meters) + Size(g, groups, meters) == First(g + 1, groups, meters)
    ensures First(groups - 1, groups, meters) + Size(groups - 1, groups, meters) == meters
    ensures 1 <= StandardSize(groups, meters) <= Size(g, groups, meters)
    ensures 0 <= First(g, groups, meters) && First(g, groups, meters) + Size(g, groups, meters) <= meters
    ensures groups >= 2 ==>
      Size(groups - 2, groups, meters) <= Size(groups - 1, groups, meters) <= Size(groups - 2, groups, meters) + 1
  {
    SizesPositive(groups, meters);
    if groups == 1 {
      assert StandardSize(1, meters) == meters;
    } else {
      hide StandardSize, SecondLastSize;
      var size := StandardSize(groups, meters);
      Multiples(g, groups - 2, size);
      Multiples(groups - 2, groups - 1, size);
    }
  }

  /** Groups partition the IDs: aggregation_group_for answers g for exactly the IDs of group g. */
  lemma GroupsPartition(i: int, g: int, groups: int, meters: int)
    requires Sane(groups, meters) && 0 <= i < meters && 0 <= g < groups
    ensures 0 <= GroupFor(i, groups, meters) < groups
    ensures GroupFor(i, groups, meters) == g <==> InGroup(i, g, groups, meters)
  {
    SizesPositive(groups, meters);
    var size := StandardSize(groups, meters);
    hide StandardSize, SecondLastSize;
    Multiples(g, groups - 2, size);
    Multiples(g - 1, groups - 2, size);
    QuotientBounds(i, g, size);
    QuotientBounds(i, groups - 2, size);
    QuotientBounds(i, 0, size);
    Classified(i, g, groups, meters, i / size, g * size, (groups - 2) * size, SecondLastSize(groups, meters), size);
  }

  /** The arithmetic of GroupsPartition with the multiples of the group size as plain numbers. */
  lemma Classified(i: int, g: int, groups: int, meters: int, q: int, begin: int, tail: int, second: int, size: int)
    requires 0 <= i < meters && 0 <= g < groups
    requires 1 <= size <= second && tail + second < meters
    requires 0 <= q && (q >= groups - 2 <==> i >= tail) && (q == g <==> begin <= i < begin + size)
    requires (g < groups - 2 ==> begin + size <= tail) && (g == groups - 2 ==> begin == tail)
    ensures var answer := if q >= groups - 2 then (if i >= tail && i < tail + second then groups - 2 else groups - 1) else q;
            var first := if g == groups - 1 then tail + second else begin;
            var length := if g == groups - 1 then meters - first else if g == groups - 2 then second else size;
            && (answer < 0 ==> groups == 1 && i < tail + second) && answer < groups
            && (answer == g <==> first <= i < first + length)
  {
  }

  lemma QuotientBounds(i: int, g: int, size: int)
    requires size >= 1
    ensures i / size >= g <==> i >= g * size
    ensures i / size == g <==> g * size <= i < g * size + size
  {
    var q := i / size;
    assert i == q * size + i % size;
    Multiples(q, g, size);
    Multiples(g, q, size);
  }

  // ---- choosing proxies ----

  /** random_int_exclude: `choice` is drawn from [low, high - 1]. */
  function RandomExclude(choice: int, high: int, exclude: int): int {
    if choice == exclude then high else choice
  }

  /** The draws reach every ID but the excluded one, each by exactly one draw. */
  lemma ExcludeIsBijective(low: int, high: int, exclude: int, id: int)
    requires low <= exclude <= high && low < high
    ensures low <= id <= high && id != exclude <==>
      exists c :: low <= c <= high - 1 && RandomExclude(c, high, exclude) == id
    ensures forall c, d :: low <= c <= d <= high - 1 && RandomExclude(c, high, exclude) == RandomExclude(d, high, exclude)
                           ==> c == d
  {
    var c := if id == high then exclude else id;
    assert low <= id <= high && id != exclude ==> RandomExclude(c, high, exclude) == id;
  }

  /** One uniform draw for each group number from the range given. */
  type Draws = (int, int, int) -> int

  ghost predicate InRange(draw: Draws) {
    forall n, low, high :: low <= high ==> low <= draw(n, low, high) <= high
  }

  method PickFrom(draw: Draws, n: int, node: int, begin: int, end: int) returns (p: int)
    requires InRange(draw) && begin < end
    ensures begin <= p <= end && p != node
  {
    if begin <= node && node <= end {
      p := RandomExclude(draw(n, begin, end - 1), end, node);
    } else {
      p := draw(n, begin, end);
    }
  }

  ghost predicate ProxiesOk(proxies: seq<int>, node: int, groups: int, meters: int)
    requires Sane(groups, meters)
  {
    |proxies| == groups && forall g :: 0 <= g < groups ==> InGroup(proxies[g], g, groups, meters) && proxies[g] != node
  }

  /** One proxy from every group, never the node itself; an error exactly when the groups would be too small. */
  method PickProxies(node: int, groups: int, meters: int, draw: Draws) returns (r: Result<seq<int>>)
    requires Sane(groups, meters) && groups >= 2 && InRange(draw)
    ensures r.Err? <==> StandardSize(groups, meters) < 2
    ensures r.Ok? ==> ProxiesOk(r.value, node, groups, meters)
  {
    var proxies := new int[groups];
    var size := StandardSize(groups, meters);
    var secondLast := SecondLastSize(groups, meters);
    if size < 2 {
      return Err("Too many groups for this system size.");
    }
    SizesPositive(groups, meters);
    var n := 0;
    while n < groups - 2
      invariant 0 <= n <= groups - 2
      invariant forall g :: 0 <= g < n ==> InGroup(proxies[g], g, groups, meters) && proxies[g] != node
    {
      var begin := n * size;
      proxies[n] := PickFrom(draw, n, node, begin, begin + (size - 1));
      n := n + 1;
    }
    var begin := (groups - 2) * size;
    var end := begin + (secondLast - 1);
    proxies[groups - 2] := PickFrom(draw, groups - 2, node, begin, end);
    begin := end + 1;
    end := meters - 1;
    proxies[groups - 1] := PickFrom(draw, groups - 1, node, begin, end);
    return Ok(proxies[..]);
  }

  // ---- trees ----

  /** The parent's ID, or -1 at the root. */
  function Parent(i: int, groups: int, meters: int): int
    requires Sane(groups, meters)
  {
    var g := GroupFor(i, groups, meters);
    var first := First(g, groups, meters);
    if i == first then -1 else (i - first - 1) / 2 + first
  }

  /** The children's IDs, -1 for one that does not exist. */
  function Children(i: int, groups: int, meters: int): (int, int)
    requires Sane(groups, meters)
  {
    var g := GroupFor(i, groups, meters);
    var first := First(g, groups, meters);
    var size := Size(g, groups, meters);
    var right := (i - first + 1) * 2;
    var left := right - 1;
    if left >= size then (-1, -1)
    else if right >= size then (left + first, -1)
    else (left + first, right + first)
  }

  /** Parent and children are mutual inverses, stay in the group, and children have larger IDs. */
  lemma TreeIsConsistent(p: int, c: int, groups: int, meters: int)
    requires Sane(groups, meters) && 0 <= p < meters && 0 <= c < meters
    ensures Parent(c, groups, meters) == p <==> c == Children(p, groups, meters).0 || c == Children(p, groups, meters).1
    ensures Parent(c, groups, meters) == p ==> p < c && GroupFor(c, groups, meters) == GroupFor(p, groups, meters)
    ensures Parent(c, groups, meters) == -1 <==> c == First(GroupFor(c, groups, meters), groups, meters)
    ensures Parent(c, groups, meters) == -1 || 0 <= Parent(c, groups, meters) < meters
  {
    hide First, Size, GroupFor;
    var gc, gp := GroupFor(c, groups, meters), GroupFor(p, groups, meters);
    GroupsPartition(c, 0, groups, meters);
    GroupsPartition(p, 0, groups, meters);
    GroupsPartition(c, gc, groups, meters);
    GroupsPartition(p, gp, groups, meters);
    GroupsPartition(p, gc, groups, meters);
    GroupsPartition(c, gp, groups, meters);
    GroupsAreConsecutive(gc, groups, meters);
    GroupsAreConsecutive(gp, groups, meters);
  }

  lemma ChildrenDiffer(p: int, groups: int, meters: int)
    requires Sane(groups, meters) && 0 <= p < meters
    ensures var c := Children(p, groups, meters);
            && (c.0 == -1 || p < c.0 < meters) && (c.1 == -1 || (c.0 != -1 && c.0 < c.1 < meters))
  {
    hide First, Size, GroupFor;
    var g := GroupFor(p, groups, meters);
    GroupsPartition(p, 0, groups, meters);
    GroupsPartition(p, g, groups, meters);
    GroupsAreConsecutive(g, groups, meters);
  }

  function Ancestor(i: int, k: nat, groups: int, meters: int): int
    requires Sane(groups, meters)
  {
    if k == 0 then i else
      var a := Ancestor(i, k - 1, groups, meters);
      if a == -1 then -1 else Parent(a, groups, meters)
  }

  /** Every node's ancestors end in its group's first ID, the root of the tree. */
  lemma {:induction false} ReachesRoot(i: int, groups: int, meters: int) returns (k: nat)
    requires Sane(groups, meters) && 0 <= i < meters
    ensures Ancestor(i, k, groups, meters) == First(GroupFor(i, groups, meters), groups, meters)
    decreases i
  {
    hide First, Size, GroupFor, Parent;
    var p := Parent(i, groups, meters);
    if p == -1 {
      TreeIsConsistent(0, i, groups, meters);
      k := 0;
    } else {
      TreeIsConsistent(0, i, groups, meters);
      TreeIsConsistent(p, i, groups, meters);
      var k' := ReachesRoot(p, groups, meters);
      k := k' + 1;
      AncestorOfParent(i, k', groups, meters);
    }
  }

  lemma {:induction false} AncestorOfParent(i: int, k: nat, groups: int, meters: int)
    requires Sane(groups, meters) && i != -1 && Parent(i, groups, meters) != -1
    ensures Ancestor(i, k + 1, groups, meters) == Ancestor(Parent(i, groups, meters), k, groups, meters)
  {
    hide Parent;
    if k == 0 {
      assert Ancestor(i, 1, groups, meters) == Parent(Ancestor(i, 0, groups, meters), groups, meters);
    } else {
      AncestorOfParent(i, k - 1, groups, meters);
    }
  }
}
