/** How the hops spread: which mailboxes a chunk is offered before it is parked. */
module RoutingSpread {
  import opened Arith
  import opened Limits
  import opened Mesh
  import opened Routing

  /** The number of workers a 16-bit core number allows. */
  const MAX_WORKERS: nat := 0x1_0000

  /** After how many hops the targets repeat: the stride is seven. */
  function Period(n: nat): (p: nat)
    requires 0 < n
    ensures 0 < p <= n && (n % 7 != 0 ==> p == n) && (n % 7 == 0 ==> n == 7 * p)
  {
    if n % 7 == 0 then n / 7 else n
  }

  // ----- multiples of the stride -----

  lemma Residues(r: int, q: int)
    requires 1 <= r <= 6 && 1 <= q <= 6
    ensures (r * q) % 7 != 0
  {
    if r == 1 { assert r * q == q; }
    else if r == 2 { assert r * q == 2 * q; }
    else if r == 3 { assert r * q == 3 * q; }
    else if r == 4 { assert r * q == 4 * q; }
    else if r == 5 { assert r * q == 5 * q; }
    else { assert r * q == 6 * q; }
  }

  lemma Expand(a: int, r: int, b: int, q: int)
    ensures (7 * a + r) * (7 * b + q) == r * q + (7 * (a * b) + a * q + b * r) * 7
  {
    calc {
      (7 * a + r) * (7 * b + q);
      7 * a * (7 * b + q) + r * (7 * b + q);
      49 * (a * b) + 7 * (a * q) + 7 * (b * r) + r * q;
    }
  }

  lemma SevenIsPrime(k: int, n: int)
    requires n % 7 != 0 && (k * n) % 7 == 0
    ensures k % 7 == 0
  {
    var a, r, b, q := k / 7, k % 7, n / 7, n % 7;
    Expand(a, r, b, q);
    assert k == 7 * a + r && n == 7 * b + q;
    ModStep(r * q, 7 * (a * b) + a * q + b * r, 7);
    if r != 0 { Residues(r, q); }
  }

  lemma Multiple(a: int, c: int)
    requires 0 < c
    ensures a % c == 0 <==> a == (a / c) * c
  {
  }

  lemma SameMeansMultiple(x: int, y: int, n: int)
    requires 0 < n && x % n == y % n
    ensures (x - y) % n == 0
  {
    var a, b := x / n, y / n;
    assert x - y == (a - b) * n by { assert a * n - b * n == (a - b) * n; }
    ModStep(0, a - b, n);
  }

  lemma MultipleMeansSame(x: int, y: int, n: int)
    requires 0 < n && (x - y) % n == 0
    ensures x % n == y % n
  {
    Multiple(x - y, n);
    ModStep(y, (x - y) / n, n);
  }

  /** Seven is coprime to `n`: only multiples of `n` give multiples. */
  lemma CoprimeStride(n: nat, d: int)
    requires 0 < n && n % 7 != 0 && (7 * d) % n == 0
    ensures d % n == 0
  {
    var k := (7 * d) / n;
    Multiple(7 * d, n);
    ModStep(0, d, 7);
    SevenIsPrime(k, n);
    var j := k / 7;
    assert k == 7 * j;
    assert k * n == 7 * (j * n) by { assert (7 * j) * n == 7 * (j * n); }
    assert d == j * n;
    ModStep(0, j, n);
  }

  /** Seven divides `n`. */
  lemma DividingStride(p: nat, d: int)
    requires 0 < p && (7 * d) % (7 * p) == 0
    ensures d % p == 0
  {
    var k := (7 * d) / (7 * p);
    Multiple(7 * d, 7 * p);
    assert k * (7 * p) == 7 * (k * p);
    assert d == k * p;
    ModStep(0, k, p);
  }

  lemma StrideOfMultiple(n: nat, p: nat, d: int)
    requires 0 < p && (n == p || n == 7 * p) && d % p == 0
    ensures (7 * d) % n == 0
  {
    var j := d / p;
    Multiple(d, p);
    if n == p {
      assert 7 * d == (7 * j) * n by { assert 7 * (j * n) == (7 * j) * n; }
      ModStep(0, 7 * j, n);
    } else {
      assert 7 * d == j * n by { assert 7 * (j * p) == j * (7 * p); }
      ModStep(0, j, n);
    }
  }

  lemma StrideRepeats(n: nat, d: int)
    requires 0 < n
    ensures (7 * d) % n == 0 <==> d % Period(n) == 0
  {
    var p := Period(n);
    if (7 * d) % n == 0 {
      if n % 7 == 0 { DividingStride(p, d); } else { CoprimeStride(n, d); }
    }
    if d % p == 0 { StrideOfMultiple(n, p, d); }
  }

  // ----- hops -----

  /** The width of the source's counters: hop counts are bytes, core numbers 16-bit words. */
  predicate InWidth(n: nat, c: Caller, h: nat) {
    0 < n <= MAX_WORKERS && h <= HOPS_EXHAUSTED && (c.Worker? ==> c.id < n)
  }

  /** The target before the own column is avoided. */
  function Raw(n: nat, c: Caller, h: nat): (r: nat)
    requires 0 < n
    ensures r < n
  {
    ((if c.Worker? then c.id + 1 else 0) + 7 * h) % n
  }

  lemma HopIsRaw(n: nat, c: Caller, h: nat)
    requires InWidth(n, c, h)
    ensures HopTarget(n, c, h) == OffOwnColumn(n, c, Raw(n, c, h))
  {
    if c.Host? { ModStep(7 * h, 1, WORD64); }
    ModSmall((if c.Worker? then c.id + 1 else 0) + 7 * h, WORD64);
  }

  lemma RawRepeats(n: nat, c: Caller, h: nat, k: nat)
    requires 0 < n
    ensures Raw(n, c, h) == Raw(n, c, k) <==> (h - k) % Period(n) == 0
  {
    var b := if c.Worker? then c.id + 1 else 0;
    var x, y := b + 7 * h, b + 7 * k;
    if x % n == y % n { SameMeansMultiple(x, y, n); }
    if (x - y) % n == 0 { MultipleMeansSame(x, y, n); }
    assert x - y == 7 * (h - k);
    StrideRepeats(n, h - k);
  }

  /** The targets of two hop counts.  From a host thread they agree exactly if the counts differ
      by a multiple of the period.  From a worker they also agree then, and otherwise only where
      one was bumped off the worker's own column. */
  lemma TargetsAgreeIff(n: nat, c: Caller, h: nat, k: nat)
    requires InWidth(n, c, h) && InWidth(n, c, k)
    ensures (h - k) % Period(n) == 0 ==> HopTarget(n, c, h) == HopTarget(n, c, k)
    ensures HopTarget(n, c, h) == HopTarget(n, c, k) && (h - k) % Period(n) != 0 ==>
              c.Worker? && HopTarget(n, c, h) == (if c.id + 1 == n then 0 else c.id + 1)
  {
    HopIsRaw(n, c, h);
    HopIsRaw(n, c, k);
    RawRepeats(n, c, h, k);
  }

  /** The targets of `count` successive hop counts. */
  function Targets(n: nat, c: Caller, from: nat, count: nat): set<nat>
    requires 0 < n
  {
    if count == 0 then {} else Targets(n, c, from, count - 1) + {HopTarget(n, c, from + count - 1)}
  }

  function Raws(n: nat, c: Caller, from: nat, count: nat): set<nat>
    requires 0 < n
  {
    if count == 0 then {} else Raws(n, c, from, count - 1) + {Raw(n, c, from + count - 1)}
  }

  lemma {:induction false} RawIsNew(n: nat, c: Caller, from: nat, count: nat, h: nat)
    requires 0 < n && from + count <= h < from + Period(n)
    ensures Raw(n, c, h) !in Raws(n, c, from, count)
    decreases count
  {
    if count > 0 {
      RawIsNew(n, c, from, count - 1, h);
      var k := from + count - 1;
      ModSmall(h - k, Period(n));
      RawRepeats(n, c, h, k);
    }
  }

  lemma {:induction false} RawsAreDistinct(n: nat, c: Caller, from: nat, count: nat)
    requires 0 < n && count <= Period(n)
    ensures |Raws(n, c, from, count)| == count
    decreases count
  {
    if count > 0 {
      RawsAreDistinct(n, c, from, count - 1);
      RawIsNew(n, c, from, count - 1, from + count - 1);
    }
  }

  lemma {:induction false} RawsAreTargets(n: nat, c: Caller, from: nat, count: nat)
    requires 0 < n && forall h :: from <= h < from + count ==> InWidth(n, c, h)
    ensures Raws(n, c, from, count) - (if c.Worker? then {c.id} else {}) <= Targets(n, c, from, count)
    decreases count
  {
    if count > 0 {
      RawsAreTargets(n, c, from, count - 1);
      HopIsRaw(n, c, from + count - 1);
    }
  }

  lemma {:induction false} SubsetIsSmaller(a: set<nat>, b: set<nat>)
    requires a <= b
    ensures |a| <= |b|
    decreases |a|
  {
    if x :| x in a {
      SubsetIsSmaller(a - {x}, b - {x});
    }
  }

  /** Hops spread: within one period, successive hop counts give a host thread that many
      different targets, and a worker at most one fewer. */
  lemma HopsSpread(n: nat, c: Caller, from: nat, count: nat)
    requires 0 < n && count <= Period(n)
    requires forall h :: from <= h < from + count ==> InWidth(n, c, h)
    ensures |Targets(n, c, from, count)| >= if c.Host? then count else count - 1
  {
    var own := if c.Worker? then {c.id} else {};
    var raws := Raws(n, c, from, count);
    RawsAreDistinct(n, c, from, count);
    RawsAreTargets(n, c, from, count);
    SubsetIsSmaller(raws - own, Targets(n, c, from, count));
    assert |raws - own| >= |raws| - 1 by {
      if c.Worker? && c.id in raws { assert raws == (raws - own) + own; } else { assert raws - own == raws; }
    }
    if c.Host? { assert raws - own == raws; }
  }

  lemma {:induction false} TargetsAreFull(m: Mesh, c: Caller, from: nat, count: nat)
    requires m.Shape() && CallerOk(m, c)
    requires forall h :: from <= h < from + count ==> MailboxFull(Inbox(m, c, HopTarget(m.Workers(), c, h)))
    ensures forall u :: u in Targets(m.Workers(), c, from, count) ==> u < m.Workers() && MailboxFull(Inbox(m, c, u))
    decreases count
  {
    if count > 0 { TargetsAreFull(m, c, from, count - 1); }
  }

  /** A delivered chunk can be seen in the mailboxes. */
  lemma PostingShows(m: Mesh, c: Caller, t: nat, chunk: Chunk)
    requires m.Shape() && CallerOk(m, c) && t < m.Workers()
    ensures var r := SetInbox(m, c, t, Inbox(m, c, t) + [chunk]); !(r.mail == m.mail && r.ext == m.ext)
  {
    var q := Inbox(m, c, t) + [chunk];
    OtherInbox(m, c, t, q, c, t);
    assert Inbox(SetInbox(m, c, t, q), c, t) == q;
    assert |q| != |Inbox(m, c, t)|;
  }

  /** The hop loop left the mailboxes alone. */
  predicate NotDelivered(m: Mesh, c: Caller, t: nat, chunk: Chunk)
    requires m.Shape() && CallerOk(m, c) && t < m.Workers()
  {
    var r := PushChunk(m, c, t, chunk).0; r.mail == m.mail && r.ext == m.ext
  }

  lemma AllProbesFull(m: Mesh, c: Caller, t: nat, chunk: Chunk)
    requires m.Shape() && CallerOk(m, c) && t < m.Workers() && chunk.hops <= MaxHops(m.Workers())
    requires NotDelivered(m, c, t, chunk)
    ensures MailboxFull(Inbox(m, c, t))
    ensures forall k ::
              chunk.hops < k <= MaxHops(m.Workers()) ==> MailboxFull(Inbox(m, c, HopTarget(m.Workers(), c, k)))
  {
    hide SetInbox;
    hide HopTarget;
    hide MaxHops;
    var n := m.Workers();
    var h := HopsAreFirstFit(m, c, t, chunk);
    if h <= MaxHops(n) { PostingShows(m, c, Probe(n, c, t, chunk.hops, h), chunk.(hops := h)); }
    hide PushChunk;
    assert Probe(n, c, t, chunk.hops, chunk.hops) == t;
    forall k | chunk.hops < k <= MaxHops(n) ensures MailboxFull(Inbox(m, c, HopTarget(n, c, k))) {
      assert Probe(n, c, t, chunk.hops, k) == HopTarget(n, c, k);
    }
  }

  /** A chunk that the hop loop does not put into any mailbox has been refused by many: as many
      different full mailboxes as it had hops left, within one period, less one for the bump. */
  lemma ParkedMeansManyFull(m: Mesh, c: Caller, t: nat, chunk: Chunk) returns (full: set<nat>)
    requires m.Shape() && CallerOk(m, c) && t < m.Workers() <= MAX_WORKERS && chunk.hops <= MaxHops(m.Workers())
    requires NotDelivered(m, c, t, chunk)
    ensures forall u :: u in full ==> u < m.Workers() && MailboxFull(Inbox(m, c, u))
    ensures MailboxFull(Inbox(m, c, t))
    ensures |full| >= Min(MaxHops(m.Workers()) - chunk.hops, Period(m.Workers())) - (if c.Host? then 0 else 1)
  {
    var n := m.Workers();
    AllProbesFull(m, c, t, chunk);
    hide NotDelivered;
    hide Inbox;
    hide HopTarget;
    var count := Min(MaxHops(n) - chunk.hops, Period(n));
    full := Targets(n, c, chunk.hops + 1, count);
    TargetsAreFull(m, c, chunk.hops + 1, count);
    HopsSpread(n, c, chunk.hops + 1, count);
  }
}
