/** Division and remainder facts shared by the ring buffers, the arena layout and the
    wrapping counters.  Dafny's `/` and `%` agree with the source's unsigned operators
    because every operand here is non-negative. */
module Arith {

  const WORD32: nat := 0x1_0000_0000
  const WORD64: nat := 0x1_0000_0000_0000_0000

  function Min(a: nat, b: nat): (m: nat)
    ensures m <= a && m <= b && (m == a || m == b)
  {
    if a <= b then a else b
  }

  function Upto(n: nat): (l: seq<nat>)
    ensures |l| == n && forall i :: 0 <= i < n ==> l[i] == i
  {
    seq(n, i requires 0 <= i => i)
  }

  function Times(a: nat, b: nat): nat { a * b }

  lemma MulMonotone(a: int, b: int, c: int)
    requires a <= b && 0 <= c
    ensures a * c <= b * c
  {
  }

  /** A quotient and a remainder are determined by the value they rebuild. */
  lemma DivModUnique(a: int, q: int, r: int, c: int)
    requires 0 < c && 0 <= r < c && a == q * c + r
    ensures a / c == q && a % c == r
  {
    var d := a / c;
    assert a == d * c + a % c;
    if d < q {
      MulMonotone(d + 1, q, c);
    } else if q < d {
      MulMonotone(q + 1, d, c);
    }
  }

  lemma ModSmall(a: nat, c: nat)
    requires a < c
    ensures a % c == a && a / c == 0
  {
    DivModUnique(a, 0, a, c);
  }

  lemma ModStep(a: int, k: int, c: int)
    requires 0 < c
    ensures (a + k * c) % c == a % c && (a + k * c) / c == a / c + k
  {
    assert a == (a / c) * c + a % c;
    assert (a / c + k) * c == (a / c) * c + k * c;
    DivModUnique(a + k * c, a / c + k, a % c, c);
  }

  lemma ModNext(a: int, c: int)
    requires 0 < c
    ensures (a + c) % c == a % c
  {
    ModStep(a, 1, c);
  }

  /** Two values closer than the modulus and with the same remainder are the same value. */
  lemma ModInjective(a: int, b: int, c: int)
    requires 0 < c && a % c == b % c && -c < a - b < c
    ensures a == b
  {
    var x, y := a / c, b / c;
    assert a == x * c + a % c && b == y * c + b % c;
    if x < y {
      MulMonotone(x + 1, y, c);
    } else if y < x {
      MulMonotone(y + 1, x, c);
    }
  }

  lemma ModAddMod(a: int, b: int, c: int)
    requires 0 < c
    ensures (a % c + b) % c == (a + b) % c
  {
    assert a == (a / c) * c + a % c;
    ModStep(a % c + b, a / c, c);
  }

  lemma ModSubMod(a: int, b: int, c: int)
    requires 0 < c
    ensures (a - b % c) % c == (a - b) % c
  {
    assert b == (b / c) * c + b % c;
    ModStep(a - b, b / c, c);
  }

  /** Remainders modulo a multiple of `c` keep the remainder modulo `c`. */
  lemma ModOfMod(a: int, c: int, k: int)
    requires 0 < c && 0 < k
    ensures 0 < c * k && (a % (c * k)) % c == a % c
  {
    var m := c * k;
    MulMonotone(1, k, c);
    assert a == (a / m) * m + a % m;
    assert (a / m) * m == ((a / m) * k) * c;
    ModStep(a % m, (a / m) * k, c);
  }

  function Pow2(e: nat): (p: nat)
    ensures p > 0
  {
    if e == 0 then 1 else 2 * Pow2(e - 1)
  }

  ghost predicate IsPow2(n: nat) {
    exists e: nat :: Pow2(e) == n
  }

  lemma {:induction false} Pow2Add(a: nat, b: nat)
    ensures Pow2(a + b) == Pow2(a) * Pow2(b)
  {
    if a != 0 { Pow2Add(a - 1, b); }
  }

  lemma {:induction false} Pow2Increasing(a: nat, b: nat)
    requires a < b
    ensures Pow2(a) < Pow2(b)
  {
    if a + 1 < b { Pow2Increasing(a, b - 1); }
  }

  lemma Pow2Of64()
    ensures Pow2(64) == WORD64
  {
    assert Pow2(8) == 256;
    Pow2Add(8, 8);
    assert Pow2(16) == 0x1_0000;
    Pow2Add(16, 16);
    assert Pow2(32) == WORD32;
    Pow2Add(32, 32);
  }

  /** A power of two below 2^64 divides 2^64: the reason a ring may index with a wrapped
      64-bit counter. */
  lemma Pow2Divides64(c: nat)
    requires IsPow2(c) && c < WORD64
    ensures c > 0 && WORD64 % c == 0 && WORD64 == c * (WORD64 / c) && WORD64 / c > 0
  {
    var e: nat :| Pow2(e) == c;
    Pow2Of64();
    if e >= 64 {
      if e > 64 { Pow2Increasing(64, e); }
      assert false;
    }
    Pow2Add(e, 64 - e);
    DivModUnique(WORD64, Pow2(64 - e), 0, c);
  }
}
