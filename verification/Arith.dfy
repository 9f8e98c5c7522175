/** Powers, residues and the integer form of ceil(log2(n)): the arithmetic every other module shares. */
module Arith {

  function Pow(b: nat, e: nat): (r: nat)
    ensures b > 0 ==> r > 0
  {
    if e == 0 then 1 else b * Pow(b, e - 1)
  }

  function Pow2(e: nat): (r: nat)
    ensures r > 0
  {
    if e == 0 then 1 else 2 * Pow2(e - 1)
  }

  lemma {:induction false} Pow2IsPow(e: nat)
    ensures Pow(2, e) == Pow2(e)
  {
    if e > 0 { Pow2IsPow(e - 1); }
  }

  lemma {:induction false} Pow2Add(a: nat, b: nat)
    ensures Pow2(a + b) == Pow2(a) * Pow2(b)
  {
    if a == 0 {
    } else {
      Pow2Add(a - 1, b);
      assert Pow2(a + b) == 2 * Pow2(a + b - 1);
      assert (a + b) - 1 == (a - 1) + b;
    }
  }

  lemma {:induction false} Pow2Monotone(a: nat, b: nat)
    requires a <= b
    ensures Pow2(a) <= Pow2(b)
    decreases b
  {
    if a < b { Pow2Monotone(a, b - 1); }
  }

  /** The quotient and remainder of a division are determined by the division equation. */
  lemma ModUnique(a: int, n: int, q: int, r: int)
    requires n > 0 && 0 <= r < n && a == q * n + r
    ensures a % n == r && a / n == q
  {
    var q', r' := a / n, a % n;
    assert a == q' * n + r' && 0 <= r' < n;
    assert (q - q') * n == r' - r by { Distribute(q, q', n); }
    if q - q' >= 1 {
      MulAtLeast(q - q', n);
    } else if q - q' <= -1 {
      Distribute(q', q, n);
      MulAtLeast(q' - q, n);
    }
  }

  lemma Distribute(a: int, b: int, n: int)
    ensures (a - b) * n == a * n - b * n && (a + b) * n == a * n + b * n
  {
  }

  lemma MulAtLeast(a: int, n: int)
    requires a >= 1 && n >= 0
    ensures a * n >= n
  {
  }

  lemma MulBelow(a: nat, b: nat, u: nat)
    requires a < u && b < u
    ensures a * b < u * u
  {
  }

  /** A multiple of n does not change a residue. */
  lemma ModShift(a: int, k: int, n: int)
    requires n > 0
    ensures (a + k * n) % n == a % n
  {
    Distribute(a / n, -k, n);
    ModUnique(a + k * n, n, a / n + k, a % n);
  }

  /** Equal residues mean the difference is a multiple. */
  lemma ModEqual(a: int, b: int, n: int)
    requires n > 0 && a % n == b % n
    ensures (a - b) % n == 0 && a - b == (a / n - b / n) * n
  {
    Distribute(a / n, b / n, n);
    ModUnique(a - b, n, a / n - b / n, 0);
  }

  lemma ModZero(a: int, n: int)
    requires n > 0 && a % n == 0
    ensures a == (a / n) * n
  {
  }

  lemma ModAdd(a: int, b: int, n: int)
    requires n > 0
    ensures (a % n + b) % n == (a + b) % n
  {
    ModShift(a % n + b, a / n, n);
  }

  lemma ModMul(a: int, b: int, n: int)
    requires n > 0
    ensures ((a % n) * b) % n == (a * b) % n
  {
    var q := a / n;
    assert a * b == (a % n) * b + (q * b) * n by {
      assert a == q * n + a % n;
      Distribute(q * n, -(a % n), b);
      assert (q * n) * b == (q * b) * n;
    }
    ModShift((a % n) * b, q * b, n);
  }

  lemma ModMulBoth(a: int, b: int, n: int)
    requires n > 0
    ensures ((a % n) * (b % n)) % n == (a * b) % n
  {
    ModMul(a, b % n, n);
    ModMul(b, a, n);
    assert a * (b % n) == (b % n) * a;
  }

  /** An odd modulus lets a factor of two be cancelled. */
  lemma CancelTwo(a: int, n: int)
    requires n > 0 && n % 2 == 1 && (2 * a) % n == 0
    ensures a % n == 0
  {
    var q := (2 * a) / n;
    ModZero(2 * a, n);
    var h := n / 2;
    assert n == 2 * h + 1;
    assert q * n == 2 * (q * h) + q by { assert q * n == q * (2 * h) + q; }
    assert q % 2 == 0;
    var k := q / 2;
    assert 2 * a == 2 * (k * n) by { assert q * n == (2 * k) * n; }
    ModUnique(a, n, k, 0);
  }

  lemma {:induction false} CancelPow2(a: int, e: nat, n: int)
    requires n > 0 && n % 2 == 1 && (Pow2(e) * a) % n == 0
    ensures a % n == 0
  {
    if e == 0 {
    } else {
      assert Pow2(e) * a == 2 * (Pow2(e - 1) * a);
      CancelTwo(Pow2(e - 1) * a, n);
      CancelPow2(a, e - 1, n);
    }
  }

  /** (int) ceil(log2(n)): the least L with 2^L >= n. */
  function CeilLog2(n: nat): (l: nat)
    requires n >= 1
    ensures Pow2(l) >= n
    ensures l > 0 ==> Pow2(l - 1) < n
    decreases n
  {
    if n == 1 then 0 else 1 + CeilLog2((n + 1) / 2)
  }

}
