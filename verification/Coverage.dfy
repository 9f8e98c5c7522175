/** Which systems let every node reach every other one directly within N-1 consecutive rounds. */
module Coverage {
  import opened Arith
  import opened Overlay

  /** 2 has multiplicative order at least N-1 modulo N; for a prime N this says 2 is a primitive root. */
  ghost predicate TwoIsPrimitiveRoot(n: nat)
    requires n > 0
  {
    forall k: nat :: 0 < k < n - 1 ==> Stride(k, n) != 1
  }

  ghost predicate ReachedOnce(i: nat, j: nat, start: nat, n: nat)
    requires i < n
  {
    && (exists t: nat :: start <= t < start + n - 1 && Target(i, t, n) == j)
    && (forall t: nat, u: nat ::
          start <= t < u < start + n - 1 && Target(i, t, n) == j ==> Target(i, u, n) != j)
  }

  /** Every other node is the target of exactly one of the N-1 rounds from start on. */
  ghost predicate CoversAll(i: nat, start: nat, n: nat)
    requires i < n
  {
    forall j: nat :: j < n && j != i ==> ReachedOnce(i, j, start, n)
  }

  lemma StrideRepeats(a: nat, k: nat, n: nat)
    requires n > 1 && n % 2 == 1
    ensures Stride(a + k, n) == Stride(a, n) <==> Stride(k, n) == 1
  {
    var p, q := Pow2(a), Pow2(k);
    Pow2Add(a, k);
    ModUnique(1, n, 0, 1);
    Distribute(q, 1, p);
    if (p * q) % n == p % n {
      ModEqual(p * q, p, n);
      assert p * (q - 1) == p * q - p;
      CancelPow2(q - 1, a, n);
      ModAdd(q - 1, 1, n);
      assert ((q - 1) % n + 1) % n == q % n;
    }
    if q % n == 1 {
      ModMul(q, p, n);
      assert (1 * p) % n == (q * p) % n;
    }
  }

  lemma RoundsDiffer(i: nat, t: nat, u: nat, n: nat)
    requires i < n && n >= 3 && n % 2 == 1 && TwoIsPrimitiveRoot(n) && t < u < t + n - 1
    ensures Target(i, t, n) != Target(i, u, n)
  {
    StrideRepeats(t, u - t, n);
  }

  ghost function Below(n: nat): (r: set<nat>)
    ensures |r| == n
    ensures forall j: nat :: j in r <==> j < n
  {
    if n == 0 then {} else Below(n - 1) + {n - 1}
  }

  lemma SubsetOfEqualSize<T>(a: set<T>, b: set<T>)
    requires a <= b && |a| >= |b|
    ensures a == b
  {
    assert b == a + (b - a);
    assert |b| == |a| + |b - a|;
  }

  ghost function Hit(i: nat, start: nat, k: nat, n: nat): set<nat>
    requires i < n
  {
    if k == 0 then {} else Hit(i, start, k - 1, n) + {Target(i, start + k - 1, n)}
  }

  lemma {:induction false} HitSize(i: nat, start: nat, k: nat, n: nat)
    requires i < n && n >= 3 && n % 2 == 1 && TwoIsPrimitiveRoot(n) && k <= n - 1
    ensures |Hit(i, start, k, n)| == k
    ensures Hit(i, start, k, n) <= Below(n) - {i}
    ensures forall j :: j in Hit(i, start, k, n) ==>
              exists t: nat :: start <= t < start + k && Target(i, t, n) == j
  {
    hide Target, Stride, TwoIsPrimitiveRoot;
    if k > 0 {
      HitSize(i, start, k - 1, n);
      var t := start + k - 1;
      GossipNeverSelf(i, t, n);
      forall u: nat | start <= u < t ensures Target(i, u, n) != Target(i, t, n) {
        RoundsDiffer(i, u, t, n);
      }
      assert Target(i, t, n) !in Hit(i, start, k - 1, n);
    }
  }

  lemma CoveredByRoot(i: nat, j: nat, start: nat, n: nat)
    requires i < n && n >= 3 && n % 2 == 1 && TwoIsPrimitiveRoot(n) && j < n && j != i
    ensures ReachedOnce(i, j, start, n)
  {
    hide Target, TwoIsPrimitiveRoot;
    HitSize(i, start, n - 1, n);
    SubsetOfEqualSize(Hit(i, start, n - 1, n), Below(n) - {i});
    assert j in Hit(i, start, n - 1, n);
    forall t: nat, u: nat | start <= t < u < start + n - 1 && Target(i, t, n) == j
      ensures Target(i, u, n) != j
    {
      RoundsDiffer(i, t, u, n);
    }
  }

  lemma MissedWithoutRoot(i: nat, start: nat, n: nat, k: nat)
    requires i < n && n >= 3 && n % 2 == 1 && 0 < k < n - 1 && Stride(k, n) == 1
    ensures !CoversAll(i, start, n)
  {
    hide Stride;
    StrideRepeats(start, k, n);
    GossipNeverSelf(i, start, n);
    var j := Target(i, start, n);
    assert Target(i, start + k, n) == j;
    assert !ReachedOnce(i, j, start, n);
  }

  /** For odd N, a node covers all others in N-1 consecutive rounds exactly when 2 has order N-1. */
  lemma FullCoverage(i: nat, start: nat, n: nat)
    requires i < n && n >= 3 && n % 2 == 1
    ensures CoversAll(i, start, n) <==> TwoIsPrimitiveRoot(n)
  {
    hide ReachedOnce, Stride;
    if TwoIsPrimitiveRoot(n) {
      forall j: nat | j < n && j != i ensures ReachedOnce(i, j, start, n) { CoveredByRoot(i, j, start, n); }
    } else {
      var k: nat :| 0 < k < n - 1 && Stride(k, n) == 1;
      MissedWithoutRoot(i, start, n, k);
    }
  }
}
