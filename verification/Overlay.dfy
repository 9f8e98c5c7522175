/** The gossip overlay of src/util/Overlay.cpp: round t links node i to i + 2^t mod N. */
module Overlay {
  import opened Arith

  const UINT32_SIZE: nat := 0x1_0000_0000

  /** The loop of mod_pow on values; the squaring wraps around at 32 bits, the product does not. */
  function ModPowLoop(result: nat, num: nat, pow: nat, mod: nat): nat
    requires mod > 0
    decreases pow
  {
    if pow == 0 then result
    else
      ModPowLoop(if pow % 2 == 1 then (result * num) % mod else result,
                 ((num * num) % UINT32_SIZE) % mod, pow / 2, mod)
  }

  function ModPow32(num: nat, pow: nat, mod: nat): nat
    requires mod > 0
  {
    ModPowLoop(1, num, pow, mod)
  }

  method ModPow(num: nat, pow: nat, mod: nat) returns (r: nat)
    requires num < UINT32_SIZE && pow < UINT32_SIZE && 0 < mod < UINT32_SIZE
    ensures r == ModPow32(num, pow, mod)
    ensures r < UINT32_SIZE
    ensures num < 65536 && mod <= 65536 && (mod >= 2 || pow > 0) ==> r == Pow(num, pow) % mod
  {
    var result: nat, base: nat, p: nat := 1, num, pow;
    while p > 0
      invariant ModPowLoop(result, base, p, mod) == ModPow32(num, pow, mod)
      invariant base < UINT32_SIZE && result < UINT32_SIZE
      invariant result * base < UINT32_SIZE * UINT32_SIZE  // the 64-bit product never wraps
    {
      if p % 2 == 1 {
        result := (result * base) % mod;
      }
      base := ((base * base) % UINT32_SIZE) % mod;
      p := p / 2;
      MulBelow(result, base, UINT32_SIZE);
    }
    r := result;
    if num < 65536 && mod <= 65536 && (mod >= 2 || pow > 0) {
      ModPowSmall(num, pow, mod);
    }
  }

  lemma {:induction false} PowSquare(b: nat, h: nat)
    ensures Pow(b * b, h) == Pow(b, 2 * h)
  {
    if h > 0 {
      PowSquare(b, h - 1);
      assert Pow(b, 2 * h) == b * Pow(b, 2 * h - 1) == b * (b * Pow(b, 2 * h - 2));
      assert 2 * h - 2 == 2 * (h - 1);
    }
  }

  lemma {:induction false} PowMod(a: nat, e: nat, n: nat)
    requires n > 0
    ensures Pow(a % n, e) % n == Pow(a, e) % n
  {
    if e > 0 {
      PowMod(a, e - 1, n);
      var x, y := Pow(a % n, e - 1), Pow(a, e - 1);
      ModMulBoth(a % n, x, n);
      ModMulBoth(a, y, n);
      assert (a % n) % n == a % n by { ModUnique(a % n, n, 0, a % n); }
    }
  }

  /** One multiplication step of the loop, on residues. */
  lemma MultiplyStep(result: nat, num: nat, pow: nat, mod: nat)
    requires mod > 0 && pow > 0
    ensures var next := if pow % 2 == 1 then (result * num) % mod else result;
            (next * Pow(num, 2 * (pow / 2))) % mod == (result * Pow(num, pow)) % mod
  {
    var even := Pow(num, 2 * (pow / 2));
    if pow % 2 == 1 {
      ModMul(result * num, even, mod);
      assert Pow(num, pow) == num * even;
      assert (result * num) * even == result * (num * even);
    }
  }

  /** With no wrap-around in the squaring the loop multiplies the accumulator by num^pow. */
  lemma {:induction false} LoopComputesPower(result: nat, num: nat, pow: nat, mod: nat)
    requires 0 < mod <= 65536 && num < 65536
    ensures ModPowLoop(result, num, pow, mod) % mod == (result * Pow(num, pow)) % mod
    ensures pow > 0 || result < mod ==> ModPowLoop(result, num, pow, mod) < mod
    decreases pow
  {
    hide Pow;
    if pow > 0 {
      var h := pow / 2;
      var sq := num * num;
      MulBelow(num, num, 65536);
      ModUnique(sq, UINT32_SIZE, 0, sq);
      var next := if pow % 2 == 1 then (result * num) % mod else result;
      LoopComputesPower(next, sq % mod, h, mod);
      LoopBelowMod(next, sq % mod, h, mod, pow);
      PowMod(sq, h, mod);
      PowSquare(num, h);
      ModMulBoth(next, Pow(sq % mod, h), mod);
      ModMulBoth(next, Pow(num, 2 * h), mod);
      MultiplyStep(result, num, pow, mod);
    } else {
      PowZero(num);
    }
  }

  lemma PowZero(num: nat)
    ensures Pow(num, 0) == 1
  {
  }

  /** The top bit of the exponent is one, so the last multiplication reduces the accumulator. */
  lemma {:induction false} LoopBelowMod(next: nat, base: nat, h: nat, mod: nat, pow: nat)
    requires mod > 0 && pow > 0 && h == pow / 2
    requires pow % 2 == 1 ==> next < mod
    ensures ModPowLoop(next, base, h, mod) < mod
    decreases h
  {
    if h > 0 {
      LoopBelowMod(if h % 2 == 1 then (next * base) % mod else next,
                   ((base * base) % UINT32_SIZE) % mod, h / 2, mod, h);
    }
  }

  lemma ModPowSmall(num: nat, pow: nat, mod: nat)
    requires num < 65536 && 0 < mod <= 65536 && (mod >= 2 || pow > 0)
    ensures ModPow32(num, pow, mod) == Pow(num, pow) % mod
  {
    LoopComputesPower(1, num, pow, mod);
    var r := ModPow32(num, pow, mod);
    assert r < mod;
    assert r % mod == r by { ModUnique(r, mod, 0, r); }
  }

  // ---- base two, as the overlay calls it ----

  const LADDER: seq<nat> := [2, 4, 16, 256, 65536]
  const BOUND: seq<nat> := [32, 16, 8, 4, 2]

  /** One halving step of the exponent, as long as the square stays below the modulus. */
  lemma SquareStep(result: nat, num: nat, pow: nat, mod: nat)
    requires pow > 0 && num * num < mod < UINT32_SIZE
    ensures ((num * num) % UINT32_SIZE) % mod == num * num
    ensures var next := if pow % 2 == 1 then (result * num) % mod else result;
            (next * Pow(num * num, pow / 2)) % mod == (result * Pow(num, pow)) % mod
  {
    var sq, h := num * num, pow / 2;
    ModUnique(sq, UINT32_SIZE, 0, sq);
    ModUnique(sq, mod, 0, sq);
    PowSquare(num, h);
    MultiplyStep(result, num, pow, mod);
  }

  /** Exponents below 32 never reach the squaring that wraps. */
  lemma {:induction false} LadderExact(result: nat, k: nat, pow: nat, mod: nat)
    requires k < 5 && pow < BOUND[k] && 65536 < mod < UINT32_SIZE && result < mod
    ensures ModPowLoop(result, LADDER[k], pow, mod) == (result * Pow(LADDER[k], pow)) % mod
    decreases pow
  {
    var num := LADDER[k];
    if pow == 0 {
      assert result % mod == result by { ModUnique(result, mod, 0, result); }
    } else if pow == 1 {
      assert Pow(num, 1) == num * Pow(num, 0) == num;
    } else {
      assert LADDER[k + 1] == num * num;
      SquareStep(result, num, pow, mod);
      LadderExact(if pow % 2 == 1 then (result * num) % mod else result, k + 1, pow / 2, mod);
    }
  }

  lemma {:induction false} ZeroBase(result: nat, pow: nat, mod: nat)
    requires mod > 0 && (pow > 0 || result == 0)
    ensures ModPowLoop(result, 0, pow, mod) == 0
    decreases pow
  {
    if pow > 0 {
      ModUnique(0, mod, 0, 0);
      assert result * 0 == 0;
      ZeroBase(if pow % 2 == 1 then (result * 0) % mod else result, pow / 2, mod);
    }
  }

  /** From exponent 32 on, 65536 is squared, wraps to 0, and the result is 0. */
  lemma {:induction false} LadderWraps(result: nat, k: nat, pow: nat, mod: nat)
    requires k < 5 && pow >= BOUND[k] && 65536 < mod
    ensures ModPowLoop(result, LADDER[k], pow, mod) == 0
    decreases pow
  {
    var num := LADDER[k];
    var next := if pow % 2 == 1 then (result * num) % mod else result;
    if k == 4 {
      assert ((num * num) % UINT32_SIZE) % mod == 0 by { ModUnique(0, mod, 0, 0); }
      ZeroBase(next, pow / 2, mod);
    } else {
      var sq := LADDER[k + 1];
      assert ((num * num) % UINT32_SIZE) % mod == sq by { ModUnique(sq, mod, 0, sq); }
      LadderWraps(next, k + 1, pow / 2, mod);
    }
  }

  /** A divisor of some power of two divides every power of two at least as large as itself. */
  lemma {:induction false} DividesPow2(m: nat, p: nat, e: nat)
    requires m > 0 && Pow2(p) % m == 0 && m <= Pow2(e)
    ensures Pow2(e) % m == 0
    decreases e
  {
    if m % 2 == 1 {
      assert Pow2(p) * 1 == Pow2(p);
      CancelPow2(1, p, m);
      if m > 1 { ModUnique(1, m, 0, 1); }
    } else {
      var h, q := m / 2, Pow2(p) / m;
      ModZero(Pow2(p), m);
      assert q * m == 2 * (q * h) by { assert m == 2 * h; }
      if p == 0 {
      } else {
        ModUnique(Pow2(p - 1), h, q, 0);
        DividesPow2(h, p - 1, e - 1);
        ModZero(Pow2(e - 1), h);
        var q' := Pow2(e - 1) / h;
        assert Pow2(e) == 2 * (q' * h) == q' * m by { assert m == 2 * h; }
        ModUnique(Pow2(e), m, q', 0);
      }
    }
  }

  ghost predicate BaseTwoIsExact(pow: nat, mod: nat) {
    if mod == 1 then pow > 0
    else mod <= 65536 || pow < 32 || UINT32_SIZE % mod == 0
  }

  lemma Pow2At32()
    ensures Pow2(32) == UINT32_SIZE
  {
    Pow2Add(16, 16);
    Pow2Add(8, 8);
  }

  /** Above 65536 and from exponent 32 on the code answers 0, which is right for powers of two only. */
  lemma WrappedResult(pow: nat, mod: nat)
    requires 65536 < mod < UINT32_SIZE && pow >= 32
    ensures ModPow32(2, pow, mod) == 0
    ensures Pow2(pow) % mod == 0 <==> UINT32_SIZE % mod == 0
  {
    LadderWraps(1, 0, pow, mod);
    Pow2At32();
    if UINT32_SIZE % mod == 0 {
      Pow2Add(32, pow - 32);
      ModMul(UINT32_SIZE, Pow2(pow - 32), mod);
      ModUnique(0, mod, 0, 0);
    }
    if Pow2(pow) % mod == 0 {
      DividesPow2(mod, pow, 32);
    }
  }

  /** For base two, mod_pow is right exactly on these exponents and moduli. */
  lemma ModPowBaseTwo(pow: nat, mod: nat)
    requires 0 < mod < UINT32_SIZE
    ensures ModPow32(2, pow, mod) == Pow2(pow) % mod <==> BaseTwoIsExact(pow, mod)
  {
    if mod == 1 && pow == 0 {
    } else if mod <= 65536 {
      Pow2IsPow(pow);
      ModPowSmall(2, pow, mod);
    } else if pow < 32 {
      Pow2IsPow(pow);
      LadderExact(1, 0, pow, mod);
    } else {
      WrappedResult(pow, mod);
    }
  }

  /** The smallest system size on which the wrap shows: 2^32 mod 65537 is 1, the code answers 0. */
  lemma ModPowWraps()
    ensures ModPow32(2, 32, 65537) == 0 && Pow2(32) % 65537 == 1
  {
    LadderWraps(1, 0, 32, 65537);
    Pow2At32();
  }

  // ---- gossip targets ----

  /** 2^t mod N, the distance travelled in round t. */
  function Stride(round: nat, n: nat): (r: nat)
    requires n > 0
    ensures r < n
  {
    Pow2(round) % n
  }

  function Target(source: nat, round: nat, n: nat): (r: nat)
    requires source < n
    ensures r < n
  {
    var s := source + Stride(round, n);
    if s < n then s else s - n
  }

  function Predecessor(target: nat, round: nat, n: nat): (r: nat)
    requires target < n
    ensures r < n
  {
    var s := target - Stride(round, n);
    if s >= 0 then s else s + n
  }

  /** Both are the documented formulas g(i,t) = i + 2^t mod N and its inverse j - 2^t mod N. */
  lemma GossipFormulas(i: nat, round: nat, n: nat)
    requires i < n
    ensures Target(i, round, n) == (i + Pow2(round)) % n
    ensures Predecessor(i, round, n) == (i - Pow2(round)) % n
  {
    hide Pow2;
    AddResidue(i, Pow2(round), n);
    SubtractResidue(i, Pow2(round), n);
  }

  lemma AddResidue(i: nat, p: nat, n: nat)
    requires i < n
    ensures (i + p) % n == (if i + p % n < n then i + p % n else i + p % n - n)
  {
    var q, s := p / n, p % n;
    Distribute(q, 1, n);
    if i + s < n { ModUnique(i + p, n, q, i + s); } else { ModUnique(i + p, n, q + 1, i + s - n); }
  }

  lemma SubtractResidue(i: nat, p: nat, n: nat)
    requires i < n
    ensures (i - p) % n == (if i - p % n >= 0 then i - p % n else i - p % n + n)
  {
    var q, s := p / n, p % n;
    Distribute(-q, 1, n);
    if i - s >= 0 { ModUnique(i - p, n, -q, i - s); } else { ModUnique(i - p, n, -q - 1, i - s + n); }
  }

  /** In every round the two maps are mutually inverse bijections of [0, N). */
  lemma GossipInverse(i: nat, j: nat, round: nat, n: nat)
    requires i < n && j < n
    ensures Target(i, round, n) == j <==> Predecessor(j, round, n) == i
  {
  }

  /** With an odd number of nodes no stride is a multiple of N, so nobody talks to itself. */
  lemma GossipNeverSelf(i: nat, round: nat, n: nat)
    requires i < n && n >= 3 && n % 2 == 1
    ensures Stride(round, n) != 0
    ensures Target(i, round, n) != i && Predecessor(i, round, n) != i
  {
    if Stride(round, n) == 0 {
      assert Pow2(round) * 1 == Pow2(round);
      CancelPow2(1, round, n);
      ModUnique(1, n, 0, 1);
    }
  }

  /** C++ remainder: the quotient truncates towards zero. */
  function Remainder(x: int, m: int): int
    requires m > 0
  {
    if x >= 0 then x % m else -((-x) % m)
  }

  function ModSubtract(x: int, y: int, m: int): (r: int)
    requires m > 0
  {
    Remainder(x - y, m) + (if x >= y then 0 else m)
  }

  /** mod_subtract is a residue exactly when it does not return m itself. */
  lemma ModSubtractCorrect(x: int, y: int, m: int)
    requires m > 0
    ensures ModSubtract(x, y, m) == (x - y) % m <==> x >= y || (x - y) % m != 0
  {
    var d := x - y;
    if x < y {
      var q, r := (-d) / m, (-d) % m;
      assert -d == q * m + r;
      Distribute(-q, 1, m);
      ModUnique(d, m, if r == 0 then -q else -q - 1, if r == 0 then 0 else m - r);
    }
  }

  // ---- what the code computes, and its memo tables ----

  function ComputedTarget(source: nat, round: nat, n: nat): nat
    requires n > 0
  {
    (source + ModPow32(2, round, n)) % n
  }

  function ComputedPredecessor(target: nat, round: nat, n: nat): int
    requires n > 0
  {
    ModSubtract(target, ModPow32(2, round, n), n)
  }

  /** Both computations follow the documented formulas whenever mod_pow is exact. */
  lemma ComputedGossip(i: nat, round: nat, n: nat)
    requires i < n < UINT32_SIZE && BaseTwoIsExact(round, n)
    ensures ComputedTarget(i, round, n) == Target(i, round, n)
    ensures ComputedPredecessor(i, round, n) == Predecessor(i, round, n)
  {
    ModPowBaseTwo(round, n);
    var s := Stride(round, n);
    ModUnique(i + s, n, if i + s < n then 0 else 1, Target(i, round, n));
    if i >= s {
      ModUnique(i - s, n, 0, i - s);
    } else {
      ModUnique(s - i, n, 0, s - i);
    }
  }

  /** The two function-static memo tables of gossip_target and gossip_predecessor, keyed (N, t, id). */
  class GossipMemo {
    var targets: map<(nat, nat, nat), nat>
    var sources: map<(nat, nat, nat), int>

    /** Every entry of either table holds the value the code would compute afresh. */
    ghost predicate Valid()
      reads this
    {
      && (forall key :: key in targets ==>
            key.0 > 0 && targets[key] == ComputedTarget(key.2, key.1, key.0))
      && (forall key :: key in sources ==>
            key.0 > 0 && sources[key] == ComputedPredecessor(key.2, key.1, key.0))
    }

    constructor ()
      ensures Valid() && targets == map[] && sources == map[]
    {
      targets, sources := map[], map[];
    }

    method GossipTarget(source: nat, round: nat, n: nat) returns (r: nat)
      requires Valid()
      requires source < n < 0x8000_0000 && round < 0x8000_0000
      modifies this`targets
      ensures Valid() && r == ComputedTarget(source, round, n)
      ensures targets == old(targets)[(n, round, source) := r]
      ensures BaseTwoIsExact(round, n) ==> r == Target(source, round, n)
    {
      if BaseTwoIsExact(round, n) { ComputedGossip(source, round, n); }
      if (n, round, source) in targets {
        return targets[(n, round, source)];
      }
      var stride := ModPow(2, round, n);
      r := (source + stride) % n;
      targets := targets[(n, round, source) := r];
    }

    method GossipPredecessor(target: nat, round: nat, n: nat) returns (r: int)
      requires Valid()
      requires target < n < 0x8000_0000 && round < 0x8000_0000
      modifies this`sources
      ensures Valid() && r == ComputedPredecessor(target, round, n)
      ensures sources == old(sources)[(n, round, target) := r]
      ensures BaseTwoIsExact(round, n) ==> r == Predecessor(target, round, n)
    {
      if BaseTwoIsExact(round, n) { ComputedGossip(target, round, n); }
      if (n, round, target) in sources {
        return sources[(n, round, target)];
      }
      var stride := ModPow(2, round, n);
      r := ModSubtract(target, stride, n);
      sources := sources[(n, round, target) := r];
    }
  }
}
