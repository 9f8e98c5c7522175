/** Time-respecting, node-disjoint paths through the gossip graph (src/util/PathFinder.cpp). */
module PathFinder {
  import opened Arith
  import opened Overlay

  const MIN_PATH_LENGTH: nat := 3

  datatype Option<+T> = None | Some(value: T)
  datatype Result<+T> = Ok(value: T) | Err(error: string)

  // ---- what a path promises ----

  /** Hop k is sent in round rounds[k], to that round's gossip target, and rounds never repeat. */
  ghost predicate Travels(path: seq<nat>, rounds: seq<nat>, n: nat) {
    && |path| == |rounds| + 1
    && (forall k :: 0 <= k < |path| ==> path[k] < n)
    && (forall k :: 0 <= k < |rounds| ==> Target(path[k], rounds[k], n) == path[k + 1])
    && (forall j, k :: 0 <= j < k < |rounds| ==> rounds[j] < rounds[k])
  }

  datatype Search = Search(source: nat, target: nat, n: nat, start: nat, limit: nat, exclude: set<nat>)

  ghost predicate Admissible(path: seq<nat>, rounds: seq<nat>, q: Search) {
    && Travels(path, rounds, q.n)
    && |rounds| >= 1
    && path[0] == q.source && path[|rounds|] == q.target
    && q.start <= rounds[0]
    && q.start + 3 <= rounds[|rounds| - 1] < q.limit
    && (forall k :: 0 < k < |rounds| ==> path[k] !in q.exclude && path[k] != q.target)
  }

  ghost predicate NoPath(q: Search) {
    forall path, rounds :: !Admissible(path, rounds, q)
  }

  /** No node before the target occurs twice. */
  ghost predicate Simple(path: seq<nat>) {
    forall j, k :: 0 <= j < k < |path| - 1 ==> path[j] != path[k]
  }

  /** An admissible, simple path no admissible path beats. */
  ghost predicate Earliest(path: seq<nat>, q: Search) {
    && Simple(path)
    && (exists rounds ::
          && Admissible(path, rounds, q)
          && forall p, rs :: Admissible(p, rs, q) ==> rounds[|rounds| - 1] <= rs[|rs| - 1])
  }

  // ---- the search ----

  datatype Infection = Infection(round: nat, parent: Option<nat>)
  type Infected = map<nat, Infection>

  /** The infection of v, when v is not the source, came from an earlier infected node. */
  ghost predicate Linked(m: Infected, v: nat, q: Search, time: nat)
    requires v in m
  {
    && v < q.n && v !in q.exclude && v != q.target
    && q.start < m[v].round <= time
    && m[v].parent.Some?
    && m[v].parent.value < q.n
    && m[v].parent.value in m
    && m[m[v].parent.value].round < m[v].round
    && Target(m[v].parent.value, m[v].round - 1, q.n) == v
  }

  /** Parent pointers lead back to the source along earlier and earlier infections. */
  ghost predicate Sound(m: Infected, q: Search, time: nat) {
    && q.source in m && m[q.source] == Infection(q.start, None) && q.source < q.n
    && (forall v {:trigger Linked(m, v, q, time)} :: v in m && v != q.source ==> Linked(m, v, q, time))
  }

  ghost predicate InRange(m: Infected, n: nat) {
    forall v :: v in m ==> v < n
  }

  /** What v could infect in round t is infected by then or off limits. */
  ghost predicate Covered(m: Infected, v: nat, t: nat, q: Search)
    requires v < q.n
  {
    var e := Target(v, t, q.n);
    && (e == q.target ==> t < q.start + MIN_PATH_LENGTH)
    && (e != q.target && e !in q.exclude ==> e in m && m[e].round <= t + 1)
  }

  ghost predicate Closed(m: Infected, q: Search, time: nat)
    requires InRange(m, q.n)
  {
    forall v, t: nat {:trigger Covered(m, v, t, q)} ::
      v in m && m[v].round <= t < time ==> Covered(m, v, t, q)
  }

  ghost predicate Inv(m: Infected, q: Search, time: nat) {
    Sound(m, q, time) && InRange(m, q.n) && Closed(m, q, time)
  }

  /** The chain of parents from the source down to v. */
  ghost function Chain(m: Infected, v: nat, q: Search, time: nat): (r: seq<nat>)
    requires Sound(m, q, time) && v in m
    ensures |r| >= 1 && r[|r| - 1] == v && r[0] == q.source
    decreases m[v].round
  {
    if v == q.source then [v]
    else
      assert Linked(m, v, q, time);
      Chain(m, m[v].parent.value, q, time) + [v]
  }

  ghost function ChainRounds(m: Infected, v: nat, q: Search, time: nat): (r: seq<nat>)
    requires Sound(m, q, time) && v in m
    ensures |r| + 1 == |Chain(m, v, q, time)|
    decreases m[v].round
  {
    if v == q.source then []
    else
      assert Linked(m, v, q, time);
      ChainRounds(m, m[v].parent.value, q, time) + [m[v].round - 1]
  }

  lemma {:induction false} ChainTravels(m: Infected, v: nat, q: Search, time: nat)
    requires Sound(m, q, time) && v in m
    ensures var path, rounds := Chain(m, v, q, time), ChainRounds(m, v, q, time);
            && Travels(path, rounds, q.n)
            && (forall k :: 0 <= k < |rounds| ==> q.start <= rounds[k] < m[v].round)
            && (forall k :: 0 <= k < |path| ==> path[k] in m && m[path[k]].round <= m[v].round)
            && (forall j, k :: 0 <= j < k < |path| ==> path[j] != path[k])
            && (forall k :: 0 < k < |path| ==> path[k] !in q.exclude && path[k] != q.target)
    decreases m[v].round
  {
    hide Target;
    if v != q.source {
      assert Linked(m, v, q, time);
      var u := m[v].parent.value;
      ChainTravels(m, u, q, time);
      if u != q.source { assert Linked(m, u, q, time); }
    }
  }

  /** A plan that stays within the closed rounds only visits nodes infected in time. */
  lemma {:induction false} PlanIsInfected(m: Infected, q: Search, time: nat, path: seq<nat>, rounds: seq<nat>, k: nat)
    requires Inv(m, q, time) && Admissible(path, rounds, q)
    requires k < |rounds| && (k > 0 ==> rounds[k - 1] < time)
    ensures path[k] in m && m[path[k]].round <= (if k == 0 then q.start else rounds[k - 1] + 1) <= rounds[k]
    ensures rounds[k] < time ==> Covered(m, path[k], rounds[k], q)
  {
    if k > 0 {
      PlanIsInfected(m, q, time, path, rounds, k - 1);
    }
  }

  lemma NothingArrivedYet(m: Infected, q: Search, time: nat, path: seq<nat>, rounds: seq<nat>)
    requires Inv(m, q, time) && Admissible(path, rounds, q)
    ensures rounds[|rounds| - 1] >= time
  {
    var k := |rounds| - 1;
    if rounds[k] < time {
      PlanIsInfected(m, q, time, path, rounds, k);
    }
  }

  lemma ChainIsEarliest(m: Infected, x: nat, q: Search, time: nat)
    requires Inv(m, q, time) && x in m && m[x].round <= time
    requires q.start + MIN_PATH_LENGTH <= time < q.limit && Target(x, time, q.n) == q.target
    ensures Earliest(Chain(m, x, q, time) + [q.target], q)
  {
    ChainTravels(m, x, q, time);
    var chain, sent := Chain(m, x, q, time), ChainRounds(m, x, q, time);
    var path, rounds := chain + [q.target], sent + [time];
    assert forall k :: 0 <= k < |sent| ==> Target(path[k], rounds[k], q.n) == path[k + 1];
    assert path[|sent|] == x;
    assert Admissible(path, rounds, q);
    forall p, rs | Admissible(p, rs, q) ensures rounds[|rounds| - 1] <= rs[|rs| - 1] {
      NothingArrivedYet(m, q, time, p, rs);
    }
  }

  /** Follows the parent pointers, building the path back to front. */
  method FollowParents(m: Infected, x: nat, q: Search, ghost time: nat) returns (path: seq<nat>)
    requires Sound(m, q, time) && x in m
    ensures path == Chain(m, x, q, time) + [q.target]
  {
    path := [q.target];
    var parent := Some(x);
    while parent.Some?
      invariant parent.Some? ==>
                  parent.value in m && Chain(m, parent.value, q, time) + path == Chain(m, x, q, time) + [q.target]
      invariant parent.None? ==> path == Chain(m, x, q, time) + [q.target]
      decreases if parent.Some? then m[parent.value].round + 1 else 0
    {
      var v := parent.value;
      if v != q.source {
        assert Linked(m, v, q, time);
        assert (Chain(m, m[v].parent.value, q, time) + [v]) + path == Chain(m, m[v].parent.value, q, time) + ([v] + path);
      }
      path := [v] + path;
      parent := m[v].parent;
    }
  }

  /** One node's infection in the round `time`, and what the round has dealt with so far. */
  ghost predicate NewlyInfected(newly: Infected, v: nat, m: Infected, q: Search, time: nat)
    requires v in newly && InRange(m, q.n)
  {
    && v < q.n && v !in q.exclude && v != q.target
    && newly[v].round == time + 1 && newly[v].parent.Some?
    && newly[v].parent.value in m
    && Target(newly[v].parent.value, time, q.n) == v
  }

  ghost predicate Handled(newly: Infected, x: nat, q: Search, time: nat)
    requires x < q.n
  {
    var e := Target(x, time, q.n);
    && (e == q.target ==> time < q.start + MIN_PATH_LENGTH)
    && (e != q.target && e !in q.exclude ==> e in newly)
  }

  ghost predicate RoundInv(newly: Infected, done: set<nat>, m: Infected, q: Search, time: nat)
    requires InRange(m, q.n) && done <= m.Keys
  {
    && (forall v {:trigger NewlyInfected(newly, v, m, q, time)} :: v in newly ==> NewlyInfected(newly, v, m, q, time))
    && (forall x {:trigger Handled(newly, x, q, time)} :: x in done ==> Handled(newly, x, q, time))
  }

  lemma InfectRound(m: Infected, newly: Infected, q: Search, time: nat)
    requires q.start <= time && Inv(m, q, time) && RoundInv(newly, m.Keys, m, q, time)
    requires forall v :: v in m ==> m[v].round <= time
    ensures Inv(newly + m, q, time + 1)
    ensures forall v :: v in newly + m ==> (newly + m)[v].round <= time + 1
  {
    var next := newly + m;
    forall v | v in next && v != q.source ensures Linked(next, v, q, time + 1) && v < q.n {
      if v in m { assert Linked(m, v, q, time); } else { assert NewlyInfected(newly, v, m, q, time); }
    }
    forall v, t: nat | v in next && next[v].round <= t < time + 1 ensures Covered(next, v, t, q) {
      assert v in newly ==> NewlyInfected(newly, v, m, q, time);
      var e := Target(v, t, q.n);
      if t < time { assert Covered(m, v, t, q); } else { assert Handled(newly, v, q, time); }
      if e in newly { assert NewlyInfected(newly, e, m, q, time); }
    }
    forall v | v in next ensures next[v].round <= time + 1 {
      if v in newly { assert NewlyInfected(newly, v, m, q, time); }
    }
  }

  method FindPath(q: Search) returns (r: Result<seq<nat>>)
    requires q.source < q.n
    ensures r.Ok? ==> Earliest(r.value, q)
    ensures r.Err? ==> NoPath(q)
  {
    var infected: Infected := map[q.source := Infection(q.start, None)];
    var time := q.start;
    while time < q.limit
      invariant q.start <= time && Inv(infected, q, time)
      invariant forall v :: v in infected ==> infected[v].round <= time
      invariant time <= q.limit || time == q.start
    {
      var newly: Infected := map[];
      var todo := infected.Keys;
      while todo != {}
        invariant todo <= infected.Keys && RoundInv(newly, infected.Keys - todo, infected, q, time)
        decreases todo
      {
        var x :| x in todo;
        var e := Target(x, time, q.n);
        ghost var done, old_newly := infected.Keys - todo, newly;
        if e in q.exclude && e != q.target {
        } else if e == q.target && time - q.start < MIN_PATH_LENGTH {
        } else if e == q.target {
          var path := FollowParents(infected, x, q, time);
          ChainIsEarliest(infected, x, q, time);
          return Ok(path);
        } else if e !in newly {
          newly := newly[e := Infection(time + 1, Some(x))];
        }
        HandleOne(old_newly, newly, x, done, infected, q, time);
        assert infected.Keys - (todo - {x}) == done + {x};
        todo := todo - {x};
      }
      assert infected.Keys - todo == infected.Keys;
      InfectRound(infected, newly, q, time);
      infected := newly + infected;  // an entry already present is kept
      time := time + 1;
    }
    forall path, rounds ensures !Admissible(path, rounds, q) {
      if Admissible(path, rounds, q) { NothingArrivedYet(infected, q, time, path, rounds); }
    }
    r := Err("Failed to find a path");
  }

  lemma HandleOne(newly: Infected, newly': Infected, x: nat, done: set<nat>, m: Infected, q: Search, time: nat)
    requires InRange(m, q.n) && done <= m.Keys && x in m && RoundInv(newly, done, m, q, time)
    requires var e := Target(x, time, q.n);
             && (e == q.target ==> time < q.start + MIN_PATH_LENGTH)
             && newly' == if e == q.target || e in q.exclude || e in newly then newly
                          else newly[e := Infection(time + 1, Some(x))]
    ensures RoundInv(newly', done + {x}, m, q, time)
  {
    forall v | v in newly' ensures NewlyInfected(newly', v, m, q, time) {
      if v in newly { assert NewlyInfected(newly, v, m, q, time); }
    }
    forall y | y in done + {x} ensures Handled(newly', y, q, time) {
      if y in done { assert Handled(newly, y, q, time); }
    }
  }

  // ---- several node-disjoint paths ----

  function SetOf(s: seq<nat>): set<nat> { set x | x in s }

  /** The hops a found path adds to the used nodes: all but its source and target. */
  function Hops(path: seq<nat>, source: nat, target: nat): set<nat> {
    SetOf(path) - {source, target}
  }

  /** The used nodes before the i-th search: all targets and the hops of the earlier paths. */
  function Used(source: nat, targets: seq<nat>, paths: seq<seq<nat>>, i: nat): set<nat>
    requires i <= |targets| && i <= |paths|
  {
    if i == 0 then SetOf(targets)
    else Used(source, targets, paths, i - 1) + Hops([source] + paths[i - 1], source, targets[i - 1])
  }

  function RoundsLimit(n: nat, count: nat): nat
    requires n >= 1
  {
    CeilLog2(n) * count + MIN_PATH_LENGTH
  }

  function NthSearch(source: nat, targets: seq<nat>, n: nat, start: nat, paths: seq<seq<nat>>, i: nat): Search
    requires n >= 1 && i < |targets| && i <= |paths|
  {
    Search(source, targets[i], n, start, start + RoundsLimit(n, |targets|), Used(source, targets, paths, i))
  }

  /** The i-th path, with the source put back in front, is the earliest one its search admits. */
  ghost predicate Planned(source: nat, targets: seq<nat>, n: nat, start: nat, paths: seq<seq<nat>>, i: nat)
    requires n >= 1 && i < |targets| && i < |paths|
  {
    Earliest([source] + paths[i], NthSearch(source, targets, n, start, paths, i))
  }

  ghost predicate PlannedUpTo(source: nat, targets: seq<nat>, n: nat, start: nat, paths: seq<seq<nat>>, k: nat)
    requires n >= 1 && k <= |targets| && k <= |paths|
  {
    forall i :: 0 <= i < k ==> Planned(source, targets, n, start, paths, i)
  }

  method FindAnother(source: nat, target: nat, n: nat, start: nat, limit: nat, used: set<nat>)
    returns (r: Result<seq<nat>>, used': set<nat>)
    requires source < n
    ensures r.Ok? ==> target < n && |r.value| >= 1 && r.value[0] == source
    ensures r.Ok? ==> Earliest(r.value, Search(source, target, n, start, limit, used))
    ensures r.Ok? ==> used' == used + Hops(r.value, source, target)
    ensures r.Err? ==> used' == used && (target >= n || NoPath(Search(source, target, n, start, limit, used)))
  {
    used' := used;
    if target >= n {
      r := Err("Invalid node number supplied to find_path");
      return;
    }
    r := FindPath(Search(source, target, n, start, limit, used));
    if r.Ok? {
      var path := r.value;
      var i := 0;
      while i < |path|
        invariant 0 <= i <= |path| && used' == used + Hops(path[..i], source, target)
      {
        assert path[..i + 1] == path[..i] + [path[i]];
        if path[i] != source && path[i] != target {
          used' := used' + {path[i]};
        }
        i := i + 1;
      }
      assert path[..i] == path;
    }
  }

  lemma {:induction false} UsedAgrees(source: nat, targets: seq<nat>, a: seq<seq<nat>>, b: seq<seq<nat>>, i: nat)
    requires i <= |targets| && i <= |a| && i <= |b| && a[..i] == b[..i]
    ensures Used(source, targets, a, i) == Used(source, targets, b, i)
  {
    if i > 0 {
      assert a[..i][..i - 1] == a[..i - 1] && b[..i][..i - 1] == b[..i - 1];
      assert a[i - 1] == a[..i][i - 1] == b[i - 1];
      UsedAgrees(source, targets, a, b, i - 1);
    }
  }

  lemma PlannedAgrees(source: nat, targets: seq<nat>, n: nat, start: nat, a: seq<seq<nat>>, b: seq<seq<nat>>, k: nat)
    requires n >= 1 && k < |targets| && k < |a| && k < |b| && a[..k] == b[..k] && a[k] == b[k]
    requires Planned(source, targets, n, start, a, k)
    ensures Planned(source, targets, n, start, b, k)
  {
    UsedAgrees(source, targets, a, b, k);
    assert NthSearch(source, targets, n, start, a, k) == NthSearch(source, targets, n, start, b, k);
  }

  lemma LastPlanned(source: nat, targets: seq<nat>, n: nat, start: nat, paths: seq<seq<nat>>, path: seq<nat>)
    requires n >= 1 && |paths| < |targets| && |path| >= 1 && path[0] == source
    requires Earliest(path, NthSearch(source, targets, n, start, paths, |paths|))
    ensures Planned(source, targets, n, start, paths + [path[1..]], |paths|)
    ensures Used(source, targets, paths + [path[1..]], |paths| + 1) ==
            Used(source, targets, paths, |paths|) + Hops(path, source, targets[|paths|])
  {
    var after := paths + [path[1..]];
    assert [source] + after[|paths|] == path;
    UsedAgrees(source, targets, paths, after, |paths|);
    assert NthSearch(source, targets, n, start, paths, |paths|) == NthSearch(source, targets, n, start, after, |paths|);
  }

  lemma AppendPlanned(source: nat, targets: seq<nat>, n: nat, start: nat, paths: seq<seq<nat>>, path: seq<nat>)
    requires n >= 1 && |paths| < |targets| && |path| >= 1 && path[0] == source
    requires PlannedUpTo(source, targets, n, start, paths, |paths|)
    requires Planned(source, targets, n, start, paths + [path[1..]], |paths|)
    ensures PlannedUpTo(source, targets, n, start, paths + [path[1..]], |paths| + 1)
  {
    var after := paths + [path[1..]];
    forall k | 0 <= k <= |paths| ensures Planned(source, targets, n, start, after, k) {
      if k < |paths| {
        assert after[..k] == paths[..k];
        PlannedAgrees(source, targets, n, start, paths, after, k);
      }
    }
  }

  /** The search that made find_paths throw: an unknown target, or one no admissible path reaches. */
  ghost predicate Fails(source: nat, targets: seq<nat>, n: nat, start: nat, paths: seq<seq<nat>>)
    requires n >= 1
  {
    && |paths| < |targets|
    && PlannedUpTo(source, targets, n, start, paths, |paths|)
    && (targets[|paths|] >= n || NoPath(NthSearch(source, targets, n, start, paths, |paths|)))
  }

  /** What find_paths has built after some searches: the paths and the nodes they use up. */
  ghost predicate Progress(source: nat, targets: seq<nat>, n: nat, start: nat, paths: seq<seq<nat>>, used: set<nat>) {
    && n >= 1 && |paths| <= |targets|
    && PlannedUpTo(source, targets, n, start, paths, |paths|)
    && used == Used(source, targets, paths, |paths|)
  }

  lemma ProgressFound(source: nat, targets: seq<nat>, n: nat, start: nat, paths: seq<seq<nat>>, used: set<nat>,
                      path: seq<nat>)
    requires Progress(source, targets, n, start, paths, used) && |paths| < |targets|
    requires |path| >= 1 && path[0] == source
    requires Earliest(path, Search(source, targets[|paths|], n, start, start + RoundsLimit(n, |targets|), used))
    ensures Progress(source, targets, n, start, paths + [path[1..]], used + Hops(path, source, targets[|paths|]))
  {
    assert NthSearch(source, targets, n, start, paths, |paths|)
        == Search(source, targets[|paths|], n, start, start + RoundsLimit(n, |targets|), used);
    LastPlanned(source, targets, n, start, paths, path);
    AppendPlanned(source, targets, n, start, paths, path);
  }

  method FindPaths(source: nat, targets: seq<nat>, n: nat, start: nat) returns (r: Result<seq<seq<nat>>>)
    requires source < n
    ensures r.Ok? ==> |r.value| == |targets| && PlannedUpTo(source, targets, n, start, r.value, |targets|)
    ensures r.Err? ==> exists paths :: Fails(source, targets, n, start, paths)
  {
    var used := SetOf(targets);
    var paths: seq<seq<nat>> := [];
    var limit := start + RoundsLimit(n, |targets|);
    while |paths| < |targets|
      invariant |paths| <= |targets|
      invariant Progress(source, targets, n, start, paths, used)
    {
      var target := targets[|paths|];
      var path, used' := FindAnother(source, target, n, start, limit, used);
      if path.Err? {
        assert Fails(source, targets, n, start, paths);
        return Err(path.error);
      }
      ProgressFound(source, targets, n, start, paths, used, path.value);
      paths := paths + [path.value[1..]];
      used := used';
    }
    r := Ok(paths);
  }

  lemma {:induction false} UsedGrows(source: nat, targets: seq<nat>, paths: seq<seq<nat>>, i: nat, j: nat)
    requires i < j <= |targets| && j <= |paths|
    ensures SetOf(targets) <= Used(source, targets, paths, j)
    ensures Hops([source] + paths[i], source, targets[i]) <= Used(source, targets, paths, j)
  {
    UsedHasTargets(source, targets, paths, j);
    if i < j - 1 { UsedGrows(source, targets, paths, i, j - 1); }
  }

  lemma {:induction false} UsedHasTargets(source: nat, targets: seq<nat>, paths: seq<seq<nat>>, j: nat)
    requires j <= |targets| && j <= |paths|
    ensures SetOf(targets) <= Used(source, targets, paths, j)
  {
    if j > 0 { UsedHasTargets(source, targets, paths, j - 1); }
  }

  /** Each path is simple, stays clear of the source and ends at its own target, meeting no other one. */
  lemma PathShape(source: nat, targets: seq<nat>, n: nat, start: nat, paths: seq<seq<nat>>, i: nat)
    requires n >= 1 && i < |targets| && i < |paths| && source !in targets
    requires Planned(source, targets, n, start, paths, i)
    ensures |paths[i]| >= 1 && paths[i][|paths[i]| - 1] == targets[i]
    ensures source !in paths[i]
    ensures forall j, k :: 0 <= j < k < |paths[i]| ==> paths[i][j] != paths[i][k]
    ensures forall k :: 0 <= k < |paths[i]| - 1 ==>
              paths[i][k] !in Used(source, targets, paths, i) && paths[i][k] !in targets
  {
    var q := NthSearch(source, targets, n, start, paths, i);
    var path := [source] + paths[i];
    var rounds :| Admissible(path, rounds, q);
    UsedHasTargets(source, targets, paths, i);
    forall k | 0 <= k < |paths[i]| - 1
      ensures paths[i][k] !in q.exclude && paths[i][k] !in targets && paths[i][k] != source
    {
      assert path[k + 1] == paths[i][k];
      assert path[0] == source;
    }
    forall j, k | 0 <= j < k < |paths[i]| ensures paths[i][j] != paths[i][k] {
      assert path[j + 1] == paths[i][j] && path[k + 1] == paths[i][k];
    }
  }

  /** Paths to different targets share no node. */
  lemma PathsAreDisjoint(source: nat, targets: seq<nat>, n: nat, start: nat, paths: seq<seq<nat>>, i: nat, j: nat)
    requires n >= 1 && i < j < |targets| == |paths| && source !in targets && targets[i] != targets[j]
    requires PlannedUpTo(source, targets, n, start, paths, |targets|)
    ensures SetOf(paths[i]) !! SetOf(paths[j])
  {
    assert Planned(source, targets, n, start, paths, i) && Planned(source, targets, n, start, paths, j);
    PathShape(source, targets, n, start, paths, i);
    PathShape(source, targets, n, start, paths, j);
    UsedGrows(source, targets, paths, i, j);
    var a, b := |paths[i]| - 1, |paths[j]| - 1;
    forall k, l | 0 <= k <= a && 0 <= l <= b ensures paths[i][k] != paths[j][l] {
      if k < a && l < b {
        assert paths[i][k] == ([source] + paths[i])[k + 1];
        assert paths[i][k] in Hops([source] + paths[i], source, targets[i]);
      }
    }
  }
}
