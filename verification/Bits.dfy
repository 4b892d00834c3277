/**
 Bitwise operations on naturals, powers of two, and the bit-smearing computation
 of the next power of two.
 */
module Bits {
  import opened Basics

  function Pow2(k: nat): (p: nat)
    ensures p >= 1
  {
    if k == 0 then 1 else 2 * Pow2(k - 1)
  }

  ghost predicate IsPow2(n: nat) {
    exists k: nat :: Pow2(k) == n
  }

  /** n <= 2^b */
  ghost predicate AtMost2To(n: nat, b: nat) {
    exists k: nat :: k <= b && n <= Pow2(k)
  }

  function And(a: nat, b: nat): nat {
    if a == 0 || b == 0 then 0
    else 2 * And(a / 2, b / 2) + (if a % 2 == 1 && b % 2 == 1 then 1 else 0)
  }

  function Or(a: nat, b: nat): nat
    decreases a + b
  {
    if a == 0 && b == 0 then 0
    else 2 * Or(a / 2, b / 2) + (if a % 2 == 1 || b % 2 == 1 then 1 else 0)
  }

  function Xor(a: nat, b: nat): nat
    decreases a + b
  {
    if a == 0 && b == 0 then 0
    else 2 * Xor(a / 2, b / 2) + (if a % 2 == b % 2 then 0 else 1)
  }

  function ShiftRight(a: nat, k: nat): nat {
    hide Pow2;
    a / Pow2(k)
  }

  // ---------- Powers of two ----------

  lemma {:induction false} Pow2Monotone(i: nat, j: nat)
    requires i <= j
    ensures Pow2(i) <= Pow2(j)
  {
    if i < j {
      Pow2Monotone(i, j - 1);
    }
  }

  lemma Positive(p: nat)
    requires IsPow2(p)
    ensures p >= 1
  {
  }

  lemma Double(p: nat)
    requires IsPow2(p)
    ensures IsPow2(2 * p)
  {
    var k: nat :| Pow2(k) == p;
    assert Pow2(k + 1) == 2 * p;
  }

  lemma Half(p: nat)
    requires IsPow2(p) && p > 1
    ensures IsPow2(p / 2) && p == 2 * (p / 2) && p / 2 >= 1
  {
    var k: nat :| Pow2(k) == p;
    assert Pow2(k) == 2 * Pow2(k - 1);
  }

  lemma One()
    ensures IsPow2(1)
  {
    assert Pow2(0) == 1;
  }

  /** Between a power of two and its double there is no other. */
  lemma Gap(p: nat, q: nat)
    requires IsPow2(p) && IsPow2(q) && p < q
    ensures 2 * p <= q
  {
    var i: nat :| Pow2(i) == p;
    var j: nat :| Pow2(j) == q;
    if j <= i {
      Pow2Monotone(j, i);
    } else {
      Pow2Monotone(i + 1, j);
    }
  }

  lemma MulAtLeast(a: int, d: int)
    requires a >= 1 && d >= 0
    ensures a * d >= d
  {
  }

  /** Quotient and remainder are determined by x == q * d + r with 0 <= r < d. */
  lemma DivMod(x: int, d: int, q: int, r: int)
    requires d >= 1 && x == q * d + r && 0 <= r < d
    ensures x / d == q && x % d == r
  {
    var q', r' := x / d, x % d;
    assert q' * d + r' == q * d + r;
    assert (q - q') * d == r' - r && (q' - q) * d == r - r';
    if q - q' >= 1 {
      MulAtLeast(q - q', d);
    } else if q' - q >= 1 {
      MulAtLeast(q' - q, d);
    }
  }

  /** k * p is a multiple of p. */
  lemma MultipleOf(k: int, p: int)
    requires p >= 1
    ensures (k * p) % p == 0 && (k * p) / p == k
  {
    DivMod(k * p, p, k, 0);
  }

  lemma ExactDiv(x: int, p: int)
    requires p >= 1 && x % p == 0
    ensures x == (x / p) * p
  {
  }

  lemma AddMultiple(x: int, y: int, p: int)
    requires p >= 1 && x % p == 0 && y % p == 0
    ensures (x + y) % p == 0
  {
    ExactDiv(x, p);
    ExactDiv(y, p);
    assert x + y == (x / p + y / p) * p;
    MultipleOf(x / p + y / p, p);
  }

  /** Divisibility is transitive. */
  lemma MultipleTrans(x: int, q: int, p: int)
    requires p >= 1 && q >= 1 && x % q == 0 && q % p == 0
    ensures x % p == 0
  {
    ExactDiv(x, q);
    ExactDiv(q, p);
    var k, j := x / q, q / p;
    assert x == (k * j) * p by {
      assert k * (j * p) == (k * j) * p;
    }
    MultipleOf(k * j, p);
  }

  lemma {:induction false} Pow2Add(i: nat, j: nat)
    ensures Pow2(i + j) == Pow2(i) * Pow2(j)
  {
    if i > 0 {
      Pow2Add(i - 1, j);
      assert Pow2(i + j) == 2 * Pow2(i - 1 + j);
      assert 2 * (Pow2(i - 1) * Pow2(j)) == (2 * Pow2(i - 1)) * Pow2(j);
    }
  }

  lemma Divides(p: nat, q: nat)
    requires IsPow2(p) && IsPow2(q) && p <= q
    ensures q % p == 0
  {
    var i: nat :| Pow2(i) == p;
    var j: nat :| Pow2(j) == q;
    if j < i {
      Pow2Monotone(j + 1, i);
    } else {
      Pow2Add(j - i, i);
      MultipleOf(Pow2(j - i), p);
    }
  }

  /** Multiples of q are multiples of every smaller power of two. */
  lemma Coarser(x: nat, p: nat, q: nat)
    requires IsPow2(p) && IsPow2(q) && p <= q && x % q == 0
    ensures x % p == 0
  {
    Divides(p, q);
    MultipleTrans(x, q, p);
  }

  // ---------- The test (n & (n - 1)) == 0 ----------

  lemma {:induction false} AndSelf(n: nat)
    ensures And(n, n) == n
  {
    if n > 0 {
      AndSelf(n / 2);
    }
  }

  lemma {:induction false} AndPredecessor(n: nat)
    requires n >= 1
    ensures And(n, n - 1) == 0 <==> IsPow2(n)
  {
    if n % 2 == 1 {
      AndSelf(n / 2);
      assert (n - 1) / 2 == n / 2;
      One();
      if IsPow2(n) && n > 1 { Half(n); }
    } else {
      AndPredecessor(n / 2);
      assert (n - 1) / 2 == n / 2 - 1;
      if IsPow2(n) { Half(n); }
      if IsPow2(n / 2) { Double(n / 2); }
    }
  }

  // ---------- The buddy address a ^ p ----------

  lemma {:induction false} XorZero(a: nat)
    ensures Xor(a, 0) == a
  {
    if a > 0 {
      XorZero(a / 2);
    }
  }

  /** Flipping one bit adds or subtracts its weight. */
  lemma {:induction false} XorPow2(a: nat, p: nat)
    requires IsPow2(p)
    ensures Xor(a, p) == if (a / p) % 2 == 0 then a + p else a - p
  {
    if p == 1 {
      XorZero(a / 2);
    } else {
      Half(p);
      XorPow2(a / 2, p / 2);
      DivDiv(a, 2, p / 2);
      assert Xor(a, p) == 2 * Xor(a / 2, p / 2) + a % 2;
    }
  }

  // ---------- Bit smearing ----------

  function Bit(x: nat, i: nat): nat {
    ShiftRight(x, i) % 2
  }

  /** Dividing by p and then by q divides by p * q. */
  lemma DivDiv(x: nat, p: nat, q: nat)
    requires p >= 1 && q >= 1
    ensures p * q >= 1 && (x / p) / q == x / (p * q)
  {
    var k, r, r0 := (x / p) / q, (x / p) % q, x % p;
    MulAtLeast(p, q);
    DivDivParts(x, x / p, p, q, k, r, r0);
    DivMod(x, p * q, k, r * p + r0);
  }

  lemma DivDivParts(x: nat, y: nat, p: nat, q: nat, k: nat, r: nat, r0: nat)
    requires y == k * q + r && r < q && x == y * p + r0 && r0 < p
    ensures x == k * (p * q) + (r * p + r0) && 0 <= r * p + r0 < p * q
  {
    calc {
      y * p;
      (k * q + r) * p;
      k * q * p + r * p;
      k * (p * q) + r * p;
    }
    var rest := q - 1 - r;
    assert rest * p >= 0;
    assert (r + rest + 1) * p == q * p;
    assert (r + rest + 1) * p == r * p + rest * p + p;
  }

  lemma ShiftTwice(x: nat, i: nat, j: nat)
    ensures ShiftRight(ShiftRight(x, i), j) == ShiftRight(x, i + j)
  {
    Pow2Add(i, j);
    DivDiv(x, Pow2(i), Pow2(j));
  }

  /** The bits of an Or. */
  lemma {:induction false} OrBit(a: nat, b: nat, i: nat)
    ensures Bit(Or(a, b), i) == if Bit(a, i) == 1 || Bit(b, i) == 1 then 1 else 0
    decreases i
  {
    if i == 0 {
      assert Pow2(0) == 1;
    } else {
      OrBit(a / 2, b / 2, i - 1);
      BitHalf(Or(a, b), i);
      BitHalf(a, i);
      BitHalf(b, i);
      assert Or(a, b) / 2 == Or(a / 2, b / 2);
    }
  }

  lemma BitHalf(x: nat, i: nat)
    requires i >= 1
    ensures Bit(x, i) == Bit(x / 2, i - 1)
  {
    ShiftTwice(x, 1, i - 1);
    assert Pow2(1) == 2 * Pow2(0);
  }

  lemma {:induction false} OrBelow(a: nat, b: nat, l: nat)
    requires a < Pow2(l) && b < Pow2(l)
    ensures Or(a, b) < Pow2(l)
  {
    if l > 0 {
      OrBelow(a / 2, b / 2, l - 1);
    }
  }

  /** x has at most l bits, and the top m of them are ones. */
  ghost predicate TopOnes(x: nat, l: nat, m: nat) {
    x < Pow2(l) && forall i :: 0 <= i < l && l - m <= i ==> Bit(x, i) == 1
  }

  lemma ShiftShrinks(x: nat, m: nat)
    ensures ShiftRight(x, m) <= x
  {
    var q := x / Pow2(m);
    if q >= 1 {
      MulAtLeast(Pow2(m), q);
    }
  }

  /** Or-ing x with itself shifted by m doubles the run of ones at the top. */
  lemma Smear(x: nat, l: nat, m: nat)
    requires TopOnes(x, l, m)
    ensures TopOnes(Or(x, ShiftRight(x, m)), l, 2 * m)
  {
    var y := ShiftRight(x, m);
    ShiftShrinks(x, m);
    OrBelow(x, y, l);
    forall i | 0 <= i < l && l - 2 * m <= i ensures Bit(Or(x, y), i) == 1 {
      OrBit(x, y, i);
      if i < l - m {
        ShiftTwice(x, m, i);
        assert Bit(y, i) == Bit(x, m + i);
      }
    }
  }

  /** A number with l one bits and no more is 2^l - 1. */
  lemma {:induction false} AllOnes(x: nat, l: nat)
    requires TopOnes(x, l, l)
    ensures x == Pow2(l) - 1
  {
    if l > 0 {
      assert Pow2(0) == 1;
      assert Bit(x, 0) == 1;
      forall i | 0 <= i < l - 1 ensures Bit(x / 2, i) == 1 {
        BitHalf(x, i + 1);
      }
      AllOnes(x / 2, l - 1);
    }
  }

  lemma AtMostHalf(n: nat, b: nat)
    requires n >= 2 && b >= 1 && AtMost2To(n, b)
    ensures AtMost2To(n / 2, b - 1)
  {
    var k: nat :| k <= b && n <= Pow2(k);
    assert Pow2(k) == 2 * Pow2(k - 1);
  }

  lemma AtMostLess(m: nat, n: nat, b: nat)
    requires m <= n && AtMost2To(n, b)
    ensures AtMost2To(m, b)
  {
  }

  /** The number of bits of w. */
  function Length(w: nat): (l: nat)
    ensures w < Pow2(l)
    ensures w > 0 ==> l >= 1 && Pow2(l - 1) <= w
  {
    if w == 0 then 0 else 1 + Length(w / 2)
  }

  /** `next_largest_power_of_2`, on the arguments for which its 64-bit arithmetic does not overflow. */
  function NextLargestPowerOf2(v: nat): nat
    requires v >= 1
  {
    var v0 := v - 1;
    var v1 := Or(v0, ShiftRight(v0, 1));
    var v2 := Or(v1, ShiftRight(v1, 2));
    var v3 := Or(v2, ShiftRight(v2, 4));
    var v4 := Or(v3, ShiftRight(v3, 8));
    var v5 := Or(v4, ShiftRight(v4, 16));
    var v6 := Or(v5, ShiftRight(v5, 32));
    v6 + 1
  }

  // ---------- The smearing on signed arguments ----------

  /** Bitwise or of integers in two's complement. */
  function SignedOr(a: int, b: int): int {
    if a >= 0 && b >= 0 then Or(a, b)
    else if a < 0 && b < 0 then -1 - And(-1 - a, -1 - b)
    else if a < 0 then -1 - ((-1 - a) - And(-1 - a, b))
    else -1 - ((-1 - b) - And(-1 - b, a))
  }

  /** Arithmetic right shift. */
  function SignedShift(a: int, k: nat): int {
    hide Pow2;
    a / Pow2(k)
  }

  /** The smearing as the source does it, on a signed number. */
  function Smeared(v: int): int {
    var v0 := v - 1;
    var v1 := SignedOr(v0, SignedShift(v0, 1));
    var v2 := SignedOr(v1, SignedShift(v1, 2));
    var v3 := SignedOr(v2, SignedShift(v2, 4));
    var v4 := SignedOr(v3, SignedShift(v3, 8));
    var v5 := SignedOr(v4, SignedShift(v4, 16));
    var v6 := SignedOr(v5, SignedShift(v5, 32));
    v6 + 1
  }

  lemma SmearedAgrees(v: int)
    requires v >= 1
    ensures Smeared(v) == NextLargestPowerOf2(v)
  {
    hide Or, Pow2;
  }

  /** All ones stay all ones, so that 0 is rounded to 0. */
  lemma ZeroSmearsToZero()
    ensures Smeared(0) == 0
  {
    AllOnesStay(1);
    AllOnesStay(2);
    AllOnesStay(4);
    AllOnesStay(8);
    AllOnesStay(16);
    AllOnesStay(32);
    hide SignedOr, SignedShift;
  }

  lemma AllOnesStay(k: nat)
    ensures SignedOr(-1, SignedShift(-1, k)) == -1
  {
    Pow2Monotone(0, k);
    hide Pow2;
  }

  lemma TopBit(w: nat)
    requires w > 0
    ensures TopOnes(w, Length(w), 1)
  {
    var l := Length(w);
    DivMod(w, Pow2(l - 1), 1, w - Pow2(l - 1));
  }

  /** With at most 64 bits, smearing leaves the number with all bits set. */
  lemma SmearAll(w: nat, l: nat)
    requires w >= 1 && l == Length(w) && l <= 64
    ensures NextLargestPowerOf2(w + 1) == Pow2(l)
  {
    var v1 := Or(w, ShiftRight(w, 1));
    var v2 := Or(v1, ShiftRight(v1, 2));
    var v3 := Or(v2, ShiftRight(v2, 4));
    var v4 := Or(v3, ShiftRight(v3, 8));
    var v5 := Or(v4, ShiftRight(v4, 16));
    var v6 := Or(v5, ShiftRight(v5, 32));
    TopBit(w);
    Smear(w, l, 1);
    Smear(v1, l, 2);
    Smear(v2, l, 4);
    Smear(v3, l, 8);
    Smear(v4, l, 16);
    Smear(v5, l, 32);
    AllOnes(v6, l);
  }

  lemma OneSmears()
    ensures NextLargestPowerOf2(1) == 1
  {
    assert Or(0, 0) == 0;
    assert forall k: nat :: ShiftRight(0, k) == 0;
    hide Or, ShiftRight;
  }

  lemma SmearsToPow2(v: nat)
    requires v >= 2 && AtMost2To(v, 62)
    ensures var r := NextLargestPowerOf2(v); IsPow2(r) && v <= r < 2 * v
  {
    hide NextLargestPowerOf2, Or, ShiftRight;
    var l := Length(v - 1);
    var k: nat :| k <= 62 && v <= Pow2(k);
    if l > k { Pow2Monotone(k, l - 1); }
    SmearAll(v - 1, l);
  }

  /** A power of two less than twice v is at most any power of two from v on. */
  lemma Upwards(v: nat, r: nat)
    requires IsPow2(r) && r < 2 * v
    ensures forall p: nat :: IsPow2(p) && v <= p ==> r <= p
  {
    forall p: nat | IsPow2(p) && v <= p ensures r <= p {
      if p < r { Gap(p, r); }
    }
  }

  /** For 1 <= v <= 2^62 the smearing yields the least power of two that is at least v. */
  lemma NextLargestIsLeast(v: nat)
    requires v >= 1 && AtMost2To(v, 62)
    ensures var r := NextLargestPowerOf2(v);
      IsPow2(r) && v <= r && (forall p: nat :: IsPow2(p) && v <= p ==> r <= p) && r < 2 * v
  {
    hide NextLargestPowerOf2, Length;
    if v == 1 {
      OneSmears();
      One();
    } else {
      SmearsToPow2(v);
      Upwards(v, NextLargestPowerOf2(v));
    }
  }
}
