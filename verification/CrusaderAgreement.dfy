/** CrusaderAgreementState: the agreement object of one meter (src/CrusaderAgreementState.cpp). */
module CrusaderAgreement {
  import opened RoundEngine
  import opened Crusader
  import opened CrusaderRun
  import opened Multicasts

  /** The accept message for a value: the value with all signatures collected, signed by this meter. */
  function AcceptBody(t: Table, id: nat): Contribution -> Body {
    v => if v in t then Accept(Package(t, v, id)) else Contributed(v)
  }

  lemma AcceptBodyOf(t: Table, id: nat, v: Contribution)
    requires v in t
    ensures AcceptBody(t, id)(v) == Accept(Package(t, v, id))
  {
  }

  class CrusaderAgreementState {
    const nodeId: nat
    const log2n: nat
    const numNodes: nat
    const queryNum: int
    var phase1Finished: bool
    var signedProxyValues: Table

    constructor (nodeId: nat, log2n: nat, numNodes: nat, queryNum: int)
      ensures this.nodeId == nodeId && this.log2n == log2n && this.numNodes == numNodes && this.queryNum == queryNum
      ensures !phase1Finished && signedProxyValues == map[]
    {
      this.nodeId, this.log2n, this.numNodes, this.queryNum := nodeId, log2n, numNodes, queryNum;
      phase1Finished, signedProxyValues := false, map[];
    }

    method HandlePhase1Message(m: SignedValue)
      modifies this`signedProxyValues
      ensures signedProxyValues == HandlePhase1(old(signedProxyValues), m)
    {
      if m.sigs == map[] {
        return;
      }
      var first := FirstKey(m.sigs);
      if !Verifies(m.value, m.sigs[first], first) {
        return;
      }
      if m.value !in signedProxyValues {
        signedProxyValues := signedProxyValues[m.value := m.sigs];
      } else {
        var entry := signedProxyValues[m.value];
        ghost var merged := map[first := m.sigs[first]] + entry;
        if first !in entry {  // insert does not replace
          entry := entry[first := m.sigs[first]];
        }
        assert entry == merged;
        signedProxyValues := signedProxyValues[m.value := entry];
      }
    }

    static function Valid(a: AgreementValue, among: set<int>): set<int> {
      set k | k in among && k in a.signed.sigs && k != a.accepter && Verifies(a.signed.value, a.signed.sigs[k], k)
    }

    static function Invalid(a: AgreementValue, among: set<int>): set<int> {
      set k | k in among && k in a.signed.sigs && k != a.accepter && !Verifies(a.signed.value, a.signed.sigs[k], k)
    }

    static lemma ExamineOne(a: AgreementValue, done: set<int>, k: int)
      requires k in a.signed.sigs && k !in done
      ensures var good := k != a.accepter && Verifies(a.signed.value, a.signed.sigs[k], k);
              var bad := k != a.accepter && !Verifies(a.signed.value, a.signed.sigs[k], k);
              && Valid(a, done + {k}) == Valid(a, done) + (if good then {k} else {})
              && Invalid(a, done + {k}) == Invalid(a, done) + (if bad then {k} else {})
              && k !in Valid(a, done)
    {
    }

    static lemma ExamineNone(a: AgreementValue)
      ensures Valid(a, {}) == {} && Invalid(a, {}) == {}
    {
    }

    static lemma ExamineAll(a: AgreementValue)
      ensures Surviving(a) == a.signed.sigs - Invalid(a, a.signed.sigs.Keys)
      ensures ValidCount(a) == |Valid(a, a.signed.sigs.Keys)|
    {
      assert Surviving(a).Keys - {a.accepter} == Valid(a, a.signed.sigs.Keys);
    }

    /** Erases invalid signatures while iterating, counting the valid ones other than the accepter's. */
    method ValidateSignatures(a: AgreementValue) returns (sigs: map<int, Sig>, valid: nat)
      ensures sigs == Surviving(a) && valid == ValidCount(a)
    {
      hide Valid, Invalid, Surviving, ValidCount;
      sigs, valid := a.signed.sigs, 0;
      var todo := sigs.Keys;
      ghost var done := {};
      ExamineNone(a);
      while todo != {}
        invariant todo + done == a.signed.sigs.Keys && todo !! done
        invariant sigs == a.signed.sigs - Invalid(a, done) && valid == |Valid(a, done)|
        decreases todo
      {
        NotEmpty(todo);
        var k :| k in todo;
        ExamineOne(a, done, k);
        todo := todo - {k};
        done := done + {k};
        if k == a.accepter {
        } else if Verifies(a.signed.value, a.signed.sigs[k], k) {
          valid := valid + 1;
        } else {
          sigs := sigs - {k};
        }
      }
      ExamineAll(a);
    }

    method HandlePhase2Message(a: AgreementValue)
      modifies this`signedProxyValues
      ensures signedProxyValues == HandlePhase2(old(signedProxyValues), a, log2n)
    {
      if !PackageVerifies(a) {
        return;
      }
      var sigs, valid := ValidateSignatures(a);
      if valid >= log2n {
        if a.signed.value !in signedProxyValues {
          signedProxyValues := signedProxyValues[a.signed.value := sigs];
        } else {
          signedProxyValues := signedProxyValues[a.signed.value := sigs + signedProxyValues[a.signed.value]];
        }
      }
    }

    /**
     * Signs every value with enough signatures and sends the package to its other proxies, starting with the next round;
     * `false` stands for an exception, which leaves phase 1 unfinished.
     */
    method FinishPhase1(round: int) returns (ok: bool, ms: seq<Message<Body>>, ghost log: seq<Sent<Body>>)
      requires nodeId < numNodes && round >= -1
      requires forall v :: v in AcceptedValues(signedProxyValues, log2n) ==> ProxyOnce(v.tuple.proxies, nodeId)
      modifies this`phase1Finished
      ensures ok ==> MulticastsAll(log, AcceptedValues(signedProxyValues, log2n),
                                   From(nodeId, numNodes, queryNum, round + 1), AcceptBody(signedProxyValues, nodeId))
      ensures ok ==> ms == AllMessages(log) && phase1Finished
      ensures !ok ==> phase1Finished == old(phase1Finished)
      ensures !ok ==> exists v ::
                v in AcceptedValues(signedProxyValues, log2n) && NoPaths(From(nodeId, numNodes, queryNum, round + 1), v)
    {
      hide Multicast, Others, MulticastsAll, AllMessages, AcceptBody, ProxyOnce;
      var from := From(nodeId, numNodes, queryNum, round + 1);
      ghost var body := AcceptBody(signedProxyValues, nodeId);
      ok, ms, log := true, [], [];
      ghost var done := {};
      NothingSent(from, body);
      var todo := signedProxyValues.Keys;
      while todo != {}
        invariant todo <= signedProxyValues.Keys && phase1Finished == old(phase1Finished)
        invariant done == set v | v in signedProxyValues.Keys - todo && Enough(signedProxyValues, v, log2n)
        invariant MulticastsAll(log, done, from, body) && ms == AllMessages(log)
        decreases todo
      {
        var v :| v in todo;
        assert signedProxyValues.Keys - (todo - {v}) == signedProxyValues.Keys - todo + {v};
        if |signedProxyValues[v]| >= log2n + 1 {
          var accept := Accept(Package(signedProxyValues, v, nodeId));
          assert accept == body(v) by { AcceptBodyOf(signedProxyValues, nodeId, v); }
          var sent, some, paths := MulticastValue(from, Others(v.tuple.proxies, nodeId), accept);
          if !sent {
            assert v in AcceptedValues(signedProxyValues, log2n) && NoPaths(from, v);
            return false, ms, log;
          }
          MulticastOne(log, done, from, body, Sent(v, accept, paths, some));
          log := log + [Sent(v, accept, paths, some)];
          ms := ms + some;
          done := done + {v};
        }
        todo := todo - {v};
      }
      assert done == AcceptedValues(signedProxyValues, log2n);
      phase1Finished := true;
    }

    method FinishPhase2() returns (accepted: set<Contribution>)
      ensures accepted == AcceptedValues(signedProxyValues, log2n)
    {
      accepted := {};
      var todo := signedProxyValues.Keys;
      while todo != {}
        invariant todo <= signedProxyValues.Keys
        invariant accepted == set v | v in signedProxyValues.Keys - todo && Enough(signedProxyValues, v, log2n)
        decreases todo
      {
        var v :| v in todo;
        if |signedProxyValues[v]| >= log2n + 1 {
          accepted := accepted + {v};
        }
        todo := todo - {v};
      }
    }
  }
}
