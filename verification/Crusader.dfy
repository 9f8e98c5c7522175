/** Crusader Agreement at one node: CrusaderAgreementState (src/CrusaderAgreementState.cpp). */
module Crusader {

  // ---- messages, with signatures as symbolic terms ----

  datatype ValueTuple = ValueTuple(query: int, values: seq<int>, proxies: seq<nat>)

  /** The utility signs with id -1. */
  datatype OwnerSig = OwnerSig(signer: int, over: ValueTuple) | OwnerGarbage(bits: int)

  datatype Contribution = Contribution(tuple: ValueTuple, sig: OwnerSig)

  /** A node's signature on a contribution; garbage verifies for nobody. */
  datatype Sig = Sig(signer: int, over: Contribution) | Garbage(bits: int)

  datatype SignedValue = SignedValue(value: Contribution, sigs: map<int, Sig>)

  datatype PackageSig = PackageSig(signer: int, over: SignedValue) | PackageGarbage(bits: int)

  datatype AgreementValue = AgreementValue(signed: SignedValue, accepter: int, sig: PackageSig)

  predicate OwnerVerifies(c: Contribution) { c.sig == OwnerSig(-1, c.tuple) }

  predicate Verifies(v: Contribution, s: Sig, id: int) { s == Sig(id, v) }

  predicate PackageVerifies(a: AgreementValue) { a.sig == PackageSig(a.accepter, a.signed) }

  /** signed_proxy_values: the signatures collected for each value. */
  type Table = map<Contribution, map<int, Sig>>

  // ---- the handlers on values ----

  lemma NotEmpty(s: set<int>)
    requires s != {}
    ensures exists x :: x in s
  {
    assert (forall x :: x !in s) ==> s == {};
  }

  lemma {:induction false} LeastExists(s: set<int>)
    requires s != {}
    ensures exists k :: k in s && forall j :: j in s ==> k <= j
  {
    NotEmpty(s);
    var x :| x in s;
    var rest := s - {x};
    if rest == {} {
      assert s == {x};
    } else {
      LeastExists(rest);
      var y :| y in rest && forall j :: j in rest ==> y <= j;
      var k := if x <= y then x else y;
      assert forall j :: j in s ==> j == x || j in rest;
      assert k in s && forall j :: j in s ==> k <= j;
    }
  }

  /** The first entry of a std::map: its least key. */
  function FirstKey(m: map<int, Sig>): (k: int)
    requires m != map[]
    ensures k in m && forall j :: j in m ==> k <= j
  {
    assert m.Keys == {} ==> m == map[];
    LeastExists(m.Keys);
    var k :| k in m.Keys && forall j :: j in m.Keys ==> k <= j;
    k
  }

  predicate Phase1Accepts(m: SignedValue) {
    m.sigs != map[] && Verifies(m.value, m.sigs[FirstKey(m.sigs)], FirstKey(m.sigs))
  }

  /** A value seen for the first time brings its whole signature map, later ones their first signature. */
  function HandlePhase1(t: Table, m: SignedValue): Table {
    if !Phase1Accepts(m) then t
    else if m.value !in t then t[m.value := m.sigs]
    else t[m.value := map[FirstKey(m.sigs) := m.sigs[FirstKey(m.sigs)]] + t[m.value]]
  }

  /** The signatures of a package that survive: the accepter's own, unchecked, and the valid ones. */
  function Surviving(a: AgreementValue): map<int, Sig> {
    map k | k in a.signed.sigs && (k == a.accepter || Verifies(a.signed.value, a.signed.sigs[k], k))
      :: a.signed.sigs[k]
  }

  function ValidCount(a: AgreementValue): nat {
    |Surviving(a).Keys - {a.accepter}|
  }

  function HandlePhase2(t: Table, a: AgreementValue, log2n: nat): Table {
    if !PackageVerifies(a) || ValidCount(a) < log2n then t
    else if a.signed.value !in t then t[a.signed.value := Surviving(a)]
    else t[a.signed.value := Surviving(a) + t[a.signed.value]]
  }

  predicate Enough(t: Table, v: Contribution, log2n: nat) {
    v in t && |t[v]| >= log2n + 1
  }

  function Package(t: Table, v: Contribution, id: int): AgreementValue
    requires v in t
  {
    AgreementValue(SignedValue(v, t[v]), id, PackageSig(id, SignedValue(v, t[v])))
  }

  /** The packages an accept multicast is sent for. */
  function AcceptPackages(t: Table, id: int, log2n: nat): set<AgreementValue> {
    set v | v in t.Keys && Enough(t, v, log2n) :: Package(t, v, id)
  }

  function AcceptedValues(t: Table, log2n: nat): set<Contribution> {
    set v | v in t.Keys && Enough(t, v, log2n)
  }

  // ---- what one message does to the table ----

  ghost predicate EntryVerified(v: Contribution, sigs: map<int, Sig>) {
    forall k :: k in sigs ==> Verifies(v, sigs[k], k)
  }

  ghost predicate TableVerified(t: Table) {
    forall v :: v in t ==> EntryVerified(v, t[v])
  }

  /** Entries only grow: no handler forgets a value or a signer, or replaces a signature. */
  lemma EntriesGrow(t: Table, m: SignedValue, a: AgreementValue, log2n: nat, v: Contribution)
    requires v in t
    ensures v in HandlePhase1(t, m) && t[v].Keys <= HandlePhase1(t, m)[v].Keys
    ensures v in HandlePhase2(t, a, log2n) && t[v].Keys <= HandlePhase2(t, a, log2n)[v].Keys
    ensures forall k :: k in t[v] ==> HandlePhase1(t, m)[v][k] == t[v][k] && HandlePhase2(t, a, log2n)[v][k] == t[v][k]
  {
  }

  function Signers(t: Table, v: Contribution): set<int> {
    if v in t then t[v].Keys else {}
  }

  /** Whose signatures on the value verify, besides the accepter's. */
  function GoodSigners(a: AgreementValue): set<int> {
    set k | k in a.signed.sigs && k != a.accepter && a.signed.sigs[k] == Sig(k, a.signed.value)
  }

  /**
   * Whom a package adds as signers: nobody unless the accepter signed it and log2n signatures besides the accepter's
   * verify; then these signers, and the accepter if the package names it.
   */
  lemma PackageAdds(t: Table, a: AgreementValue, log2n: nat, v: Contribution, k: int)
    ensures k in Signers(HandlePhase2(t, a, log2n), v) <==>
              || k in Signers(t, v)
              || (v == a.signed.value && a.sig == PackageSig(a.accepter, a.signed) && |GoodSigners(a)| >= log2n
                  && (k in GoodSigners(a) || (k == a.accepter && k in a.signed.sigs)))
  {
    SurvivingKeys(a);
    hide Surviving, GoodSigners, PackageVerifies;
    assert ValidCount(a) == |GoodSigners(a)|;
    hide ValidCount;
    assert PackageVerifies(a) <==> a.sig == PackageSig(a.accepter, a.signed) by { VerifiesMeans(a); }
    MergeSigners(t, a, v, k);
  }

  lemma VerifiesMeans(a: AgreementValue)
    ensures PackageVerifies(a) <==> a.sig == PackageSig(a.accepter, a.signed)
  {
  }

  lemma MergeSigners(t: Table, a: AgreementValue, v: Contribution, k: int)
    ensures var value := a.signed.value;
            var t' := if value !in t then t[value := Surviving(a)] else t[value := Surviving(a) + t[value]];
            k in Signers(t', v) <==> k in Signers(t, v) || (v == value && k in Surviving(a))
  {
    hide Surviving;
  }

  lemma SurvivingKeys(a: AgreementValue)
    ensures Surviving(a).Keys - {a.accepter} == GoodSigners(a)
    ensures Surviving(a).Keys == GoodSigners(a) + (if a.accepter in a.signed.sigs then {a.accepter} else {})
  {
  }

  /** Whom a phase-1 message adds: nobody unless its least signer's signature verifies. */
  lemma SignatureAdds(t: Table, m: SignedValue, v: Contribution, k: int)
    ensures k in Signers(HandlePhase1(t, m), v) <==>
              || k in Signers(t, v)
              || (v == m.value && k in m.sigs && m.sigs[FirstKey(m.sigs)] == Sig(FirstKey(m.sigs), v)
                  && (v !in t || k == FirstKey(m.sigs)))
  {
  }

  /** What a first message for a value must satisfy for its unchecked signatures not to matter. */
  predicate CleanFirst(t: Table, m: SignedValue) {
    !Phase1Accepts(m) || m.value in t || forall k :: k in m.sigs ==> Verifies(m.value, m.sigs[k], k)
  }

  /** Phase 1 keeps a fully verified table so exactly on such messages, among them all with one signature. */
  lemma Phase1KeepsVerified(t: Table, m: SignedValue)
    requires TableVerified(t)
    ensures TableVerified(HandlePhase1(t, m)) <==> CleanFirst(t, m)
    ensures |m.sigs| <= 1 ==> CleanFirst(t, m)
  {
    var t' := HandlePhase1(t, m);
    if Phase1Accepts(m) && m.value !in t {
      assert t'[m.value] == m.sigs;
    }
    if |m.sigs| == 1 {
      var k := FirstKey(m.sigs);
      assert m.sigs.Keys == {k} by { OnlyElement(m.sigs.Keys, k); }
    }
  }

  lemma OnlyElement(s: set<int>, k: int)
    requires k in s && |s| == 1
    ensures s == {k}
  {
    assert |s - {k}| == 0;
  }

  /** A first message with a second, invalid signature leaves that signature in the table, counted. */
  lemma Phase1StoresUnchecked(v: Contribution)
    ensures var m := SignedValue(v, map[1 := Sig(1, v), 2 := Garbage(0)]);
            v in AcceptedValues(HandlePhase1(map[], m), 1) && !Verifies(v, m.sigs[2], 2)
  {
    var m := SignedValue(v, map[1 := Sig(1, v), 2 := Garbage(0)]);
    assert m.sigs.Keys == {1, 2};
    assert FirstKey(m.sigs) == 1 by { assert 1 in m.sigs && 2 in m.sigs; }
    assert HandlePhase1(map[], m)[v] == m.sigs;
  }

  // ---- relaying an accepted value ----

  function RunPhase1(t: Table, ms: seq<SignedValue>): Table
    decreases |ms|
  {
    if ms == [] then t else RunPhase1(HandlePhase1(t, ms[0]), ms[1..])
  }

  datatype Input = Phase1(m: SignedValue) | Phase2(a: AgreementValue)

  /** Messages of both phases are handled whenever they arrive. */
  function RunInputs(t: Table, ins: seq<Input>, log2n: nat): Table
    decreases |ins|
  {
    if ins == [] then t
    else RunInputs(match ins[0] case Phase1(m) => HandlePhase1(t, m) case Phase2(a) => HandlePhase2(t, a, log2n),
                   ins[1..], log2n)
  }

  lemma {:induction false} RunPhase1Verified(t: Table, ms: seq<SignedValue>)
    requires TableVerified(t) && forall m :: m in ms ==> |m.sigs| <= 1
    ensures TableVerified(RunPhase1(t, ms))
    decreases |ms|
  {
    if ms != [] {
      assert ms[0] in ms;
      Phase1KeepsVerified(t, ms[0]);
      RunPhase1Verified(HandlePhase1(t, ms[0]), ms[1..]);
    }
  }

  lemma SizeMonotone(a: map<int, Sig>, b: map<int, Sig>)
    requires a.Keys <= b.Keys
    ensures |a| <= |b|
  {
    assert b.Keys == a.Keys + (b.Keys - a.Keys);
    assert |a.Keys| + |b.Keys - a.Keys| == |b.Keys|;
    assert |a| == |a.Keys| && |b| == |b.Keys|;
  }

  lemma {:induction false} RunKeepsAccepted(t: Table, ins: seq<Input>, log2n: nat, v: Contribution)
    requires Enough(t, v, log2n)
    ensures Enough(RunInputs(t, ins, log2n), v, log2n)
    decreases |ins|
  {
    if ins != [] {
      var t' := match ins[0] case Phase1(m) => HandlePhase1(t, m) case Phase2(a) => HandlePhase2(t, a, log2n);
      var m := if ins[0].Phase1? then ins[0].m else SignedValue(v, map[]);
      var a := if ins[0].Phase2? then ins[0].a else Package(t, v, 0);
      EntriesGrow(t, m, a, log2n, v);
      SizeMonotone(t[v], t'[v]);
      RunKeepsAccepted(t', ins[1..], log2n, v);
    }
  }

  /**
   * Exactly when a node without its own entry for the value accepts it on receiving p's package: enough
   * valid signatures besides p's, and one signature more, which may be p's own unchecked one.
   */
  lemma PackageAccepted(t: Table, v: Contribution, sigs: map<int, Sig>, p: int, log2n: nat)
    requires v !in t
    ensures var a := AgreementValue(SignedValue(v, sigs), p, PackageSig(p, SignedValue(v, sigs)));
            Enough(HandlePhase2(t, a, log2n), v, log2n) <==>
              ValidCount(a) >= log2n && (ValidCount(a) > log2n || p in sigs)
  {
  }

  /** A fully verified package with enough signatures passes, whether or not its accepter is among the signers. */
  lemma VerifiedPackageAccepted(t: Table, v: Contribution, sigs: map<int, Sig>, p: int, log2n: nat)
    requires EntryVerified(v, sigs) && |sigs| >= log2n + 1
    ensures var a := AgreementValue(SignedValue(v, sigs), p, PackageSig(p, SignedValue(v, sigs)));
            Enough(HandlePhase2(t, a, log2n), v, log2n) && Surviving(a) == sigs && ValidCount(a) >= log2n
  {
    var a := AgreementValue(SignedValue(v, sigs), p, PackageSig(p, SignedValue(v, sigs)));
    assert Surviving(a) == sigs;
    assert |sigs| == |sigs.Keys|;
    if p in sigs {
      assert sigs.Keys == (sigs.Keys - {p}) + {p};
    } else {
      assert sigs.Keys - {p} == sigs.Keys;
    }
    SizeMonotone(sigs, HandlePhase2(t, a, log2n)[v]);
  }

  /**
   * If p's entry comes from phase-1 messages alone and passes finish_phase_1, every node that handles p's
   * accept message accepts the value, whatever it handled before and handles after.
   */
  lemma Relay(ms: seq<SignedValue>, p: int, v: Contribution, before: seq<Input>, after: seq<Input>, log2n: nat)
    requires forall m :: m in ms ==> |m.sigs| <= 1
    requires Enough(RunPhase1(map[], ms), v, log2n)
    ensures var a := Package(RunPhase1(map[], ms), v, p);
            && a in AcceptPackages(RunPhase1(map[], ms), p, log2n)
            && v in AcceptedValues(RunInputs(HandlePhase2(RunInputs(map[], before, log2n), a, log2n), after, log2n), log2n)
  {
    var t := RunPhase1(map[], ms);
    var q := RunInputs(map[], before, log2n);
    RunPhase1Verified(map[], ms);
    VerifiedPackageAccepted(q, v, t[v], p, log2n);
    RunKeepsAccepted(HandlePhase2(q, Package(t, v, p), log2n), after, log2n, v);
  }

  /**
   * An entry that phase 2 has merged before finish_phase_1 need not be relayed: node 5's unchecked
   * signature counts at node 1 but is dropped at a node that learns the value from node 1.
   */
  lemma MergedEntryNotRelayed(v: Contribution)
    ensures var sigs := map[5 := Garbage(0), 6 := Sig(6, v)];
            var t1 := HandlePhase2(map[], AgreementValue(SignedValue(v, sigs), 5, PackageSig(5, SignedValue(v, sigs))), 1);
            && Enough(t1, v, 1)
            && !Enough(HandlePhase2(map[], Package(t1, v, 1), 1), v, 1)
  {
    var sigs := map[5 := Garbage(0), 6 := Sig(6, v)];
    var a := AgreementValue(SignedValue(v, sigs), 5, PackageSig(5, SignedValue(v, sigs)));
    assert Surviving(a) == sigs;
    assert sigs.Keys - {5} == {6};
    var t1 := HandlePhase2(map[], a, 1);
    assert sigs.Keys == {5, 6};
    assert |t1[v]| == |sigs.Keys|;
    var b := Package(t1, v, 1);
    assert Surviving(b).Keys - {1} == {6};
    PackageAccepted(map[], v, t1[v], 1, 1);
  }
}
