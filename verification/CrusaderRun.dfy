/** Whole runs of Crusader Agreement among honest proxies and up to log2n faulty ones. */
module CrusaderRun {
  import opened Crusader

  datatype Phase = Shuffle | Agreement | Aggregate

  /** The part of BftProtocolState that matters to agreement, at one honest meter. */
  datatype Proxy = Proxy(phase: Phase, proxyValues: set<Contribution>, table: Table, phase1Finished: bool,
                         accepted: set<Contribution>)

  const FreshProxy := Proxy(Shuffle, {}, map[], false, {})

  datatype Body = Contributed(c: Contribution) | Signed(m: SignedValue) | Accept(a: AgreementValue)

  datatype Move = Deliver(to: int, body: Body) | EndShuffle(node: int) | EndPhase1(node: int) | EndPhase2(node: int)

  /** The honest proxies, and every signature they have ever made. */
  datatype Global = Global(nodes: map<int, Proxy>, signed: set<(int, Contribution)>, packages: set<(int, SignedValue)>)

  datatype Setting = Setting(query: int, log2n: nat, faulty: set<int>)

  // ---- one step ----

  /** Messages of the wrong kind for the phase are dropped. */
  function Receive(s: Setting, n: Proxy, body: Body): Proxy {
    match (n.phase, body)
    case (Shuffle, Contributed(c)) =>
      if c.tuple.query == s.query && OwnerVerifies(c) then n.(proxyValues := n.proxyValues + {c}) else n
    case (Agreement, Signed(m)) => n.(table := HandlePhase1(n.table, m))
    case (Agreement, Accept(a)) => n.(table := HandlePhase2(n.table, a, s.log2n))
    case _ => n
  }

  function PackagesOf(n: Proxy, id: int, log2n: nat): set<(int, SignedValue)> {
    set v | v in n.table.Keys && Enough(n.table, v, log2n) :: (id, SignedValue(v, n.table[v]))
  }

  function Step(s: Setting, g: Global, m: Move): Global {
    match m
    case Deliver(to, body) =>
      if to !in g.nodes then g else g.(nodes := g.nodes[to := Receive(s, g.nodes[to], body)])
    case EndShuffle(i) =>
      if i !in g.nodes || g.nodes[i].phase != Shuffle then g
      else g.(nodes := g.nodes[i := g.nodes[i].(phase := Agreement)],
              signed := g.signed + set v | v in g.nodes[i].proxyValues :: (i, v))
    case EndPhase1(i) =>
      if i !in g.nodes || g.nodes[i].phase != Agreement || g.nodes[i].phase1Finished then g
      else g.(nodes := g.nodes[i := g.nodes[i].(phase1Finished := true)],
              packages := g.packages + PackagesOf(g.nodes[i], i, s.log2n))
    case EndPhase2(i) =>
      if i !in g.nodes || g.nodes[i].phase != Agreement || !g.nodes[i].phase1Finished then g
      else g.(nodes := g.nodes[i := g.nodes[i].(phase := Aggregate,
                                                accepted := AcceptedValues(g.nodes[i].table, s.log2n))])
  }

  // ---- what the faulty meters and the network can deliver ----

  /** Signatures are unforgeable: one that verifies was made by a faulty meter or has been made by its signer. */
  predicate Known(s: Setting, g: Global, sig: Sig) {
    sig.Garbage? || sig.signer in s.faulty || (sig.signer, sig.over) in g.signed
  }

  predicate AllKnown(s: Setting, g: Global, sigs: map<int, Sig>) {
    forall k :: k in sigs ==> Known(s, g, sigs[k])
  }

  predicate Deliverable(s: Setting, g: Global, body: Body) {
    match body
    case Contributed(_) => true
    case Signed(m) => AllKnown(s, g, m.sigs)
    case Accept(a) =>
      && AllKnown(s, g, a.signed.sigs)
      && (a.sig.PackageGarbage? || a.sig.signer in s.faulty || (a.sig.signer, a.sig.over) in g.packages)
  }

  /** A first signed value for an entry carries no unchecked signature; one with a single signature never does. */
  predicate Clean(g: Global, to: int, body: Body) {
    body.Signed? && to in g.nodes ==> CleanFirst(g.nodes[to].table, body.m)
  }

  predicate CanHappen(s: Setting, g: Global, m: Move) {
    m.Deliver? ==> Deliverable(s, g, m.body) && Clean(g, m.to, m.body)
  }

  predicate Happens(s: Setting, g: Global, ms: seq<Move>)
    decreases |ms|
  {
    ms == [] || (CanHappen(s, g, ms[0]) && Happens(s, Step(s, g, ms[0]), ms[1..]))
  }

  function After(s: Setting, g: Global, ms: seq<Move>): Global
    decreases |ms|
  {
    if ms == [] then g else After(s, Step(s, g, ms[0]), ms[1..])
  }

  function Start(honest: set<int>): Global {
    Global(map i | i in honest :: FreshProxy, {}, {})
  }

  // ---- the invariant ----

  ghost predicate Vouched(g: Global, v: Contribution) {
    exists p :: (p, v) in g.signed
  }

  ghost predicate Backed(s: Setting, g: Global, v: Contribution, sigs: map<int, Sig>) {
    forall k :: k in sigs ==> k in s.faulty || Vouched(g, v)
  }

  ghost predicate TableBacked(s: Setting, g: Global, t: Table) {
    forall v :: v in t ==> Backed(s, g, v, t[v])
  }

  ghost predicate NodeOk(s: Setting, g: Global, n: Proxy) {
    && TableBacked(s, g, n.table)
    && (forall v :: v in n.accepted ==> Vouched(g, v))
    && (forall v :: v in n.proxyValues ==> v.tuple.query == s.query && OwnerVerifies(v))
  }

  ghost predicate SignedOk(g: Global) {
    forall e :: e in g.signed ==>
      e.0 in g.nodes && e.1 in g.nodes[e.0].proxyValues && g.nodes[e.0].phase != Shuffle
  }

  ghost predicate PackagesOk(s: Setting, g: Global) {
    forall e :: e in g.packages ==> e.0 in g.nodes && Backed(s, g, e.1.value, e.1.sigs)
  }

  ghost predicate Inv(s: Setting, g: Global) {
    && g.nodes.Keys !! s.faulty
    && SignedOk(g)
    && PackagesOk(s, g)
    && forall i :: i in g.nodes ==> NodeOk(s, g, g.nodes[i])
  }

  lemma BackedGrows(s: Setting, g: Global, g': Global)
    requires g.signed <= g'.signed
    ensures forall v :: Vouched(g, v) ==> Vouched(g', v)
    ensures forall v, sigs :: Backed(s, g, v, sigs) ==> Backed(s, g', v, sigs)
    ensures forall n :: NodeOk(s, g, n) ==> NodeOk(s, g', n)
  {
  }

  lemma Phase1KeepsBacked(s: Setting, g: Global, t: Table, m: SignedValue)
    requires TableBacked(s, g, t) && AllKnown(s, g, m.sigs) && CleanFirst(t, m)
    ensures TableBacked(s, g, HandlePhase1(t, m))
  {
  }

  /** The accepter's own signature is not checked; an honest accepter vouches for it by its invariant. */
  lemma Phase2KeepsBacked(s: Setting, g: Global, t: Table, a: AgreementValue)
    requires TableBacked(s, g, t) && PackagesOk(s, g) && Deliverable(s, g, Accept(a))
    ensures TableBacked(s, g, HandlePhase2(t, a, s.log2n))
  {
  }

  lemma OneOutside(a: set<int>, b: set<int>) returns (k: int)
    requires |a| > |b|
    ensures k in a && k !in b
  {
    assert a == a * b + (a - b) && b == a * b + (b - a);
    assert |a * b + (a - b)| == |a * b| + |a - b|;
    assert |a * b + (b - a)| == |a * b| + |b - a|;
    NotEmpty(a - b);
    k :| k in a - b;
  }

  /** More signers than faulty meters: some signer is honest. */
  lemma EnoughIsVouched(s: Setting, g: Global, t: Table, v: Contribution)
    requires TableBacked(s, g, t) && |s.faulty| <= s.log2n && Enough(t, v, s.log2n)
    ensures Vouched(g, v)
  {
    assert |t[v].Keys| == |t[v]|;
    var k := OneOutside(t[v].Keys, s.faulty);
    assert Backed(s, g, v, t[v]);
  }

  lemma DeliverKeeps(s: Setting, g: Global, to: int, body: Body)
    requires Inv(s, g) && CanHappen(s, g, Deliver(to, body))
    ensures Inv(s, Step(s, g, Deliver(to, body)))
  {
    hide HandlePhase1, HandlePhase2, TableBacked, CleanFirst, Backed, Vouched, AllKnown;
    var g' := Step(s, g, Deliver(to, body));
    BackedGrows(s, g, g');
    if to in g.nodes {
      var n := g.nodes[to];
      assert NodeOk(s, g, n);
      if n.phase == Agreement && body.Signed? {
        Phase1KeepsBacked(s, g, n.table, body.m);
      } else if n.phase == Agreement && body.Accept? {
        Phase2KeepsBacked(s, g, n.table, body.a);
      }
      assert NodeOk(s, g, Receive(s, n, body));
      forall e | e in g'.signed
        ensures e.0 in g'.nodes && e.1 in g'.nodes[e.0].proxyValues && g'.nodes[e.0].phase != Shuffle
      {
        assert e in g.signed;
      }
    }
  }

  lemma EndShuffleKeeps(s: Setting, g: Global, i: int)
    requires Inv(s, g)
    ensures Inv(s, Step(s, g, EndShuffle(i)))
  {
  }

  lemma EndPhase1Keeps(s: Setting, g: Global, i: int)
    requires Inv(s, g)
    ensures Inv(s, Step(s, g, EndPhase1(i)))
  {
  }

  lemma EndPhase2Keeps(s: Setting, g: Global, i: int)
    requires Inv(s, g) && |s.faulty| <= s.log2n
    ensures Inv(s, Step(s, g, EndPhase2(i)))
  {
    hide Backed, Vouched, Enough, TableBacked;
    var g' := Step(s, g, EndPhase2(i));
    BackedGrows(s, g, g');
    if i in g.nodes {
      assert NodeOk(s, g, g.nodes[i]);
      forall v | v in AcceptedValues(g.nodes[i].table, s.log2n) ensures Vouched(g, v) {
        EnoughIsVouched(s, g, g.nodes[i].table, v);
      }
    }
  }

  lemma {:induction false} RunKeeps(s: Setting, g: Global, ms: seq<Move>)
    requires Inv(s, g) && |s.faulty| <= s.log2n && Happens(s, g, ms)
    ensures Inv(s, After(s, g, ms))
    decreases |ms|
  {
    hide Inv, Step, CanHappen;
    if ms != [] {
      match ms[0] {
        case Deliver(to, body) => DeliverKeeps(s, g, to, body);
        case EndShuffle(i) => EndShuffleKeeps(s, g, i);
        case EndPhase1(i) => EndPhase1Keeps(s, g, i);
        case EndPhase2(i) => EndPhase2Keeps(s, g, i);
      }
      RunKeeps(s, Step(s, g, ms[0]), ms[1..]);
    }
  }

  lemma StartOk(s: Setting, honest: set<int>)
    requires honest !! s.faulty
    ensures Inv(s, Start(honest))
  {
  }

  /**
   * Validity: whatever an honest meter accepts in finish_phase_2, at least one honest proxy received as a
   * proxy value for this query, with the owner's valid signature, and signed.
   */
  lemma Validity(s: Setting, honest: set<int>, ms: seq<Move>, i: int, v: Contribution) returns (p: int)
    requires honest !! s.faulty && |s.faulty| <= s.log2n
    requires Happens(s, Start(honest), ms)
    requires i in honest && i in After(s, Start(honest), ms).nodes
    requires v in After(s, Start(honest), ms).nodes[i].accepted
    ensures var g := After(s, Start(honest), ms);
            && p in honest && (p, v) in g.signed && p in g.nodes && v in g.nodes[p].proxyValues
            && v.tuple.query == s.query && OwnerVerifies(v)
  {
    hide Happens, After, Step, Backed, TableBacked;
    var g := After(s, Start(honest), ms);
    StartOk(s, honest);
    RunKeeps(s, Start(honest), ms);
    NodesStay(s, Start(honest), ms);
    assert NodeOk(s, g, g.nodes[i]);
    assert Vouched(g, v);
    p :| (p, v) in g.signed;
    assert NodeOk(s, g, g.nodes[p]);
  }

  lemma {:induction false} NodesStay(s: Setting, g: Global, ms: seq<Move>)
    ensures After(s, g, ms).nodes.Keys == g.nodes.Keys
    decreases |ms|
  {
    if ms != [] {
      NodesStay(s, Step(s, g, ms[0]), ms[1..]);
      assert Step(s, g, ms[0]).nodes.Keys == g.nodes.Keys;
    }
  }

  /** The bound is tight: with one more faulty meter, a run exists in which a value nobody honest saw is accepted. */
  lemma BoundIsTight(s: Setting, i: int, v: Contribution, f: int) returns (ms: seq<Move>)
    requires |s.faulty| == s.log2n + 1 && f in s.faulty && i !in s.faulty
    ensures Happens(s, Start({i}), ms)
    ensures var g := After(s, Start({i}), ms); i in g.nodes && v in g.nodes[i].accepted && g.signed == {}
  {
    var sigs := map k | k in s.faulty :: Sig(k, v);
    var a := AgreementValue(SignedValue(v, sigs), f, PackageSig(f, SignedValue(v, sigs)));
    ms := [EndShuffle(i), Deliver(i, Accept(a)), EndPhase1(i), EndPhase2(i)];
    assert |sigs| == s.log2n + 1 by { assert sigs.Keys == s.faulty; assert |sigs| == |sigs.Keys|; }
    VerifiedPackageAccepted(map[], v, sigs, f, s.log2n);
    var g0 := Start({i});
    var g1 := Step(s, g0, ms[0]);
    var g2 := Step(s, g1, ms[1]);
    var g3 := Step(s, g2, ms[2]);
    var g4 := Step(s, g3, ms[3]);
    assert g1.nodes[i].table == map[] && g1.signed == {};
    assert Deliverable(s, g1, Accept(a));
    assert v in g4.nodes[i].accepted;
    AfterFour(s, g0, ms[0], ms[1], ms[2], ms[3]);
  }

  lemma AfterFour(s: Setting, g: Global, a: Move, b: Move, c: Move, d: Move)
    ensures After(s, g, [a, b, c, d]) == Step(s, Step(s, Step(s, Step(s, g, a), b), c), d)
    ensures Happens(s, g, [a, b, c, d]) <==>
      && CanHappen(s, g, a) && CanHappen(s, Step(s, g, a), b)
      && CanHappen(s, Step(s, Step(s, g, a), b), c)
      && CanHappen(s, Step(s, Step(s, Step(s, g, a), b), c), d)
  {
    hide Step, CanHappen;
    AfterTwo(s, g, a, b, [c, d]);
    AfterTwo(s, Step(s, Step(s, g, a), b), c, d, []);
    assert [a, b] + [c, d] == [a, b, c, d] && [c, d] + [] == [c, d];
  }

  lemma AfterTwo(s: Setting, g: Global, a: Move, b: Move, rest: seq<Move>)
    ensures After(s, g, [a, b] + rest) == After(s, Step(s, Step(s, g, a), b), rest)
    ensures Happens(s, g, [a, b] + rest) <==>
      CanHappen(s, g, a) && CanHappen(s, Step(s, g, a), b) && Happens(s, Step(s, Step(s, g, a), b), rest)
  {
  }
}
