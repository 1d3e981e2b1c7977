/** The arithmetic of a guard page followed by `k` slots, repeated: `z` is the slot size, `p`
    the page size, `n` the number of slots. */
module Tiling {
  import opened Arith

  function Unit(z: nat, p: nat, k: nat): nat { k * z + p }

  /** Where slot `i` starts: after all slots before it and one guard page per group begun. */
  function SlotAt(i: nat, z: nat, p: nat, k: nat): nat
    requires 0 < k
  {
    i * z + (i / k + 1) * p
  }

  function CeilDiv(n: nat, k: nat): nat
    requires 0 < k
  {
    (n + k - 1) / k
  }

  lemma CeilDivBounds(n: nat, k: nat)
    requires 0 < k
    ensures n <= CeilDiv(n, k) * k < n + k
  {
    var m := n + k - 1;
    assert m == (m / k) * k + m % k;
  }

  lemma Distribute(q: nat, k: nat, r: nat, z: nat)
    ensures (q * k + r) * z == q * (k * z) + r * z
  {
    assert (q * k + r) * z == (q * k) * z + r * z;
    assert (q * k) * z == q * (k * z);
  }

  /** Slot `i` starts `i % k` slots behind the guard page of its group. */
  lemma SlotInUnit(i: nat, z: nat, p: nat, k: nat)
    requires 0 < k
    ensures SlotAt(i, z, p, k) == (i / k) * Unit(z, p, k) + (p + (i % k) * z)
  {
    var q, r := i / k, i % k;
    assert i == q * k + r;
    Distribute(q, k, r, z);
    assert q * Unit(z, p, k) == q * (k * z) + q * p;
    assert (q + 1) * p == q * p + p;
  }

  lemma GuardIsFound(g: nat, x: nat, z: nat, p: nat, k: nat)
    requires 0 < p && g * Unit(z, p, k) <= x < g * Unit(z, p, k) + p
    ensures Unit(z, p, k) >= p && x / Unit(z, p, k) == g && x % Unit(z, p, k) < p
  {
    MulMonotone(0, k, z);
    DivModUnique(x, g, x - g * Unit(z, p, k), Unit(z, p, k));
  }

  lemma SlotIsFound(i: nat, x: nat, z: nat, p: nat, k: nat)
    requires 0 < k && 0 < z && 0 < p && SlotAt(i, z, p, k) <= x < SlotAt(i, z, p, k) + z
    ensures Unit(z, p, k) > 0 && x % Unit(z, p, k) >= p
    ensures SlotNumber(x, z, p, k) == i
  {
    var q, r, u := i / k, i % k, Unit(z, p, k);
    SlotInUnit(i, z, p, k);
    var off := x - q * u - p;
    assert r * z <= off < r * z + z;
    MulMonotone(r + 1, k, z);
    assert (r + 1) * z == r * z + z;
    DivModUnique(x, q, p + off, u);
    DivModUnique(off, r, off - r * z, z);
    assert i == q * k + r;
  }

  /** An offset below the total size lies in a unit that has a guard page. */
  lemma UnitExists(x: nat, n: nat, z: nat, p: nat, k: nat)
    requires 0 < k && 0 < p && x < n * z + CeilDiv(n, k) * p
    ensures Unit(z, p, k) > 0 && x / Unit(z, p, k) < CeilDiv(n, k)
  {
    var u, g := Unit(z, p, k), CeilDiv(n, k);
    MulMonotone(0, k, z);
    CeilDivBounds(n, k);
    MulMonotone(n, g * k, z);
    Distribute(g, k, 0, z);
    assert g * u == g * (k * z) + g * p;
    assert x == (x / u) * u + x % u;
    if x / u >= g { MulMonotone(g, x / u, u); }
  }

  lemma LastGroup(q: nat, s: nat, n: nat, k: nat)
    requires 0 < k && s < k && q < CeilDiv(n, k) && n <= q * k + s
    ensures CeilDiv(n, k) == q + 1
  {
    var g := CeilDiv(n, k);
    CeilDivBounds(n, k);
    assert (q + 2) * k == q * k + k + k;
    if q + 2 <= g { MulMonotone(q + 2, g, k); }
  }

  /** ... and, behind that guard page, in a slot that exists. */
  lemma SlotExists(x: nat, q: nat, s: nat, n: nat, z: nat, p: nat, k: nat)
    requires 0 < k && 0 < p && x < n * z + CeilDiv(n, k) * p
    requires q < CeilDiv(n, k) && s < k && q * Unit(z, p, k) + (p + s * z) <= x
    ensures q * k + s < n
  {
    Distribute(q, k, s, z);
    assert q * Unit(z, p, k) == q * (k * z) + q * p;
    assert (q + 1) * p == q * p + p;
    if n <= q * k + s {
      LastGroup(q, s, n, k);
      MulMonotone(n, q * k + s, z);
    }
  }

  /** Whether `x` is in a guard page, and the number of that page or of the slot it is in. */
  function Locate(x: nat, z: nat, p: nat, k: nat): (bool, nat)
    requires 0 < z && 0 < p
  {
    MulMonotone(0, k, z);
    if x % Unit(z, p, k) < p then (true, x / Unit(z, p, k)) else (false, SlotNumber(x, z, p, k))
  }

  /** The slot behind the guard page of the unit that `x` is in. */
  function SlotNumber(x: nat, z: nat, p: nat, k: nat): nat
    requires 0 < z && Unit(z, p, k) > 0 && p <= x % Unit(z, p, k)
  {
    var q: nat, s: nat := x / Unit(z, p, k), (x % Unit(z, p, k) - p) / z;
    MulMonotone(0, q, k);
    q * k + s
  }

  lemma SlotNumberFits(x: nat, n: nat, z: nat, p: nat, k: nat)
    requires 0 < k && 0 < z && 0 < p && x < n * z + CeilDiv(n, k) * p
    requires Unit(z, p, k) > 0 && p <= x % Unit(z, p, k)
    ensures var i := SlotNumber(x, z, p, k); i < n && SlotAt(i, z, p, k) <= x < SlotAt(i, z, p, k) + z
  {
    var u := Unit(z, p, k);
    var q, m := x / u, x % u;
    var s := (m - p) / z;
    assert x == q * u + m;
    assert m - p == s * z + (m - p) % z;
    UnitExists(x, n, z, p, k);
    if s >= k { MulMonotone(k, s, z); }
    SlotExists(x, q, s, n, z, p, k);
    DivModUnique(q * k + s, q, s, k);
    SlotInUnit(q * k + s, z, p, k);
  }

  lemma LocateIsRight(x: nat, n: nat, z: nat, p: nat, k: nat)
    requires 0 < k && 0 < z && 0 < p && x < n * z + CeilDiv(n, k) * p
    ensures var (isGuard, i) := Locate(x, z, p, k);
            if isGuard then i < CeilDiv(n, k) && i * Unit(z, p, k) <= x < i * Unit(z, p, k) + p
            else i < n && SlotAt(i, z, p, k) <= x < SlotAt(i, z, p, k) + z
  {
    MulMonotone(0, k, z);
    UnitExists(x, n, z, p, k);
    assert x == (x / Unit(z, p, k)) * Unit(z, p, k) + x % Unit(z, p, k);
    if x % Unit(z, p, k) >= p { SlotNumberFits(x, n, z, p, k); }
  }

  /** With no guard pages slots lie side by side. */
  function PlainSlot(x: nat, z: nat): nat
    requires 0 < z
  {
    x / z
  }

  lemma PlainSlotIff(x: nat, i: nat, n: nat, z: nat)
    requires 0 < z
    ensures i * z <= x < i * z + z <==> i == PlainSlot(x, z)
    ensures x < n * z <==> PlainSlot(x, z) < n
  {
    assert x == (x / z) * z + x % z;
    if i * z <= x < i * z + z { DivModUnique(x, i, x - i * z, z); }
    if x / z < n { MulMonotone(x / z + 1, n, z); } else { MulMonotone(n, x / z, z); }
  }

  lemma SlotFits(i: nat, n: nat, z: nat, p: nat, k: nat)
    requires 0 < k && i < n
    ensures SlotAt(i, z, p, k) + z <= n * z + CeilDiv(n, k) * p
  {
    var g := CeilDiv(n, k);
    CeilDivBounds(n, k);
    MulMonotone(i + 1, n, z);
    assert (i + 1) * z == i * z + z;
    assert i == (i / k) * k + i % k;
    if i / k >= g { MulMonotone(g, i / k, k); }
    MulMonotone(i / k + 1, g, p);
  }

  lemma GuardFits(g: nat, n: nat, z: nat, p: nat, k: nat)
    requires 0 < k && g < CeilDiv(n, k)
    ensures g * Unit(z, p, k) + p <= n * z + CeilDiv(n, k) * p
  {
    CeilDivBounds(n, k);
    MulMonotone(g + 1, CeilDiv(n, k), k);
    assert (g + 1) * k == g * k + k;
    MulMonotone(g * k, n, z);
    Distribute(g, k, 0, z);
    assert g * Unit(z, p, k) == g * (k * z) + g * p;
    MulMonotone(g + 1, CeilDiv(n, k), p);
    assert (g + 1) * p == g * p + p;
  }
}
