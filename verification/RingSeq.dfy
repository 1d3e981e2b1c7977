/** Sequences stored in a ring: facts shared by every ring buffer of the project. */
module RingSeq {
  import opened Arith

  lemma RingIndex(cap: nat, from: nat, i: nat)
    requires 0 < cap && i < cap
    ensures (from + i) % cap == (if from % cap + i < cap then from % cap + i else from % cap + i - cap)
  {
    ModAddMod(from, i, cap);
    if from % cap + i < cap {
      ModSmall(from % cap + i, cap);
    } else {
      ModStep(from % cap + i - cap, 1, cap);
      ModSmall(from % cap + i - cap, cap);
    }
  }

  /** The ring `b` holds `q` from counter value `head` on. */
  ghost predicate Holds<T>(b: seq<T>, head: nat, q: seq<T>) {
    && 0 < |b|
    && |q| <= |b|
    && forall i :: 0 <= i < |q| ==> b[(head + i) % |b|] == q[i]
  }

  /** One straight run, starting right behind the queue, extends it. */
  lemma RunExtends<T>(b: seq<T>, head: nat, q: seq<T>, start: nat, piece: seq<T>)
    requires Holds(b, head, q) && |q| + |piece| <= |b|
    requires start + |piece| <= |b| && (piece == [] || start == (head + |q|) % |b|)
    ensures Holds(b[..start] + piece + b[start + |piece|..], head, q + piece)
  {
    var b' := b[..start] + piece + b[start + |piece|..];
    forall i | 0 <= i < |q + piece| ensures b'[(head + i) % |b|] == (q + piece)[i] {
      if i >= |q| {
        RingIndex(|b|, head + |q|, i - |q|);
      } else if start <= (head + i) % |b| < start + |piece| {
        var k := (head + i) % |b| - start;
        RingIndex(|b|, head + |q|, k);
        ModInjective(head + i, head + |q| + k, |b|);
      }
    }
  }

  /** Two runs, the second from the beginning of the buffer, extend it by `n` elements. */
  lemma RunsExtend<T>(b: seq<T>, head: nat, q: seq<T>, src: seq<T>, n: nat, start: nat, first: nat)
    requires Holds(b, head, q) && |q| + n <= |b| && n <= |src|
    requires start == (head + |q|) % |b| && first == Min(n, |b| - start)
    ensures var b1 := b[..start] + src[..first] + b[start + first..];
            Holds(b1[..0] + src[first..n] + b1[n - first..], head, q + src[..n])
  {
    RunExtends(b, head, q, start, src[..first]);
    var b1 := b[..start] + src[..first] + b[start + first..];
    if first < n { RingIndex(|b|, head + |q|, first); }
    RunExtends(b1, head, q + src[..first], 0, src[first..n]);
    assert q + src[..first] + src[first..n] == q + src[..n];
  }

  /** The two straight runs of a bulk read are the first `n` queued elements. */
  lemma RunsAreFront<T>(b: seq<T>, head: nat, q: seq<T>, n: nat)
    requires Holds(b, head, q) && n <= |q|
    ensures var start := head % |b|;
            var first := Min(n, |b| - start);
            n - first <= |b| && b[start..start + first] + b[..n - first] == q[..n]
  {
    var start := head % |b|;
    var first := Min(n, |b| - start);
    var r := b[start..start + first] + b[..n - first];
    forall i | 0 <= i < n ensures r[i] == q[i] {
      RingIndex(|b|, head, i);
    }
  }

  /** Dropping `n` elements moves the head by `n`. */
  lemma DropFrontMasked<T>(b: seq<T>, head: nat, q: seq<T>, n: nat)
    requires Holds(b, head, q) && n <= |q|
    ensures Holds(b, (head + n) % |b|, q[n..])
  {
    forall i | 0 <= i < |q| - n ensures b[((head + n) % |b| + i) % |b|] == q[n..][i] {
      ModAddMod(head + n, i, |b|);
    }
  }

  /** The element behind the queue is at the tail, and the tail advances with the length. */
  lemma TailMasked(cap: nat, head: nat, tail: nat, n: nat)
    requires head < cap && tail < cap
    ensures (head + (tail - head) % cap) % cap == tail
    ensures (tail - head) % cap + n < cap ==> ((tail + n) % cap - head) % cap == (tail - head) % cap + n
  {
    ModAddMod(tail - head, head, cap);
    ModSmall(tail, cap);
    if (tail - head) % cap + n < cap {
      var back: int := head;
      ModAddMod(tail + n, -back, cap);
      ModAddMod(tail - head, n, cap);
      ModSmall((tail - head) % cap + n, cap);
    }
  }

  lemma HeadMasked(cap: nat, head: nat, tail: nat, n: nat)
    requires head < cap && tail < cap && n <= (tail - head) % cap
    ensures (tail - (head + n) % cap) % cap == (tail - head) % cap - n
  {
    ModSubMod(tail, head + n, cap);
    var back: int := n;
    ModAddMod(tail - head, -back, cap);
    ModSmall((tail - head) % cap - n, cap);
  }

  /** `copy_nonoverlapping`: `len` elements of `src` from `from` on are copied to `dst`. */
  method CopyInto<T>(dst: array<T>, to: nat, src: seq<T>, from: nat, len: nat)
    requires to + len <= dst.Length && from + len <= |src|
    modifies dst
    ensures dst[..] == old(dst[..])[..to] + src[from..from + len] + old(dst[..])[to + len..]
  {
    var k := 0;
    while k < len
      invariant k <= len
      invariant forall i :: 0 <= i < dst.Length ==>
                  dst[i] == if to <= i < to + k then src[from + i - to] else old(dst[i])
    {
      dst[to + k] := src[from + k];
      k := k + 1;
    }
    ghost var was := old(dst[..]);
    assert forall i :: 0 <= i < dst.Length ==> dst[..][i] == (was[..to] + src[from..from + len] + was[to + len..])[i];
  }

  /** A straight copy, and a second one behind it if the first was not enough. */
  lemma TwoCopies<T>(d: seq<T>, b: seq<T>, start: nat, first: nat, n: nat)
    requires start + first <= |b| && first <= n <= |d| && n - first <= |b|
    ensures var d1 := d[..0] + b[start..start + first] + d[0 + first..];
            && (n == first ==> d1 == b[start..start + first] + b[..n - first] + d[n..])
            && d1[..first] + b[0..0 + (n - first)] + d1[first + (n - first)..]
               == b[start..start + first] + b[..n - first] + d[n..]
  {
  }
}
