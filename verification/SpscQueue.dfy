/** `SpscQueue` as an object: the in-place ring with its wrapped 64-bit counters, proved
    against the plain queue of its contents. */
module SpscQueueObject {
  import opened Arith
  import opened Wrappers
  import opened RingSeq

  /** Pushing one value at a time, as the bulk call's documentation compares itself to. */
  function PushAll<T>(q: seq<T>, cap: nat, src: seq<T>): (r: (seq<T>, nat))
    decreases |src|
  {
    if src == [] || |q| >= cap then (q, 0)
    else
      var rest := PushAll(q + [src[0]], cap, src[1..]);
      (rest.0, rest.1 + 1)
  }

  /** Popping one value at a time, at most `want` times. */
  function PopAll<T>(q: seq<T>, want: nat): (r: (seq<T>, seq<T>))
    decreases want
  {
    if want == 0 || q == [] then (q, [])
    else
      var rest := PopAll(q[1..], want - 1);
      (rest.0, [q[0]] + rest.1)
  }

  /** Repeated pushes stop at the first refusal having stored as long a prefix as fits. */
  lemma {:induction false} PushAllStoresPrefix<T>(q: seq<T>, cap: nat, src: seq<T>)
    requires |q| <= cap
    ensures PushAll(q, cap, src) == (q + src[..Min(cap - |q|, |src|)], Min(cap - |q|, |src|))
    decreases |src|
  {
    var n := Min(cap - |q|, |src|);
    if n == 0 {
      assert q + src[..0] == q;
    } else {
      PushAllStoresPrefix(q + [src[0]], cap, src[1..]);
      assert q + [src[0]] + src[1..][..n - 1] == q + src[..n];
    }
  }

  lemma {:induction false} PopAllTakesPrefix<T>(q: seq<T>, want: nat)
    ensures PopAll(q, want) == (q[Min(|q|, want)..], q[..Min(|q|, want)])
    decreases want
  {
    if want > 0 && q != [] {
      PopAllTakesPrefix(q[1..], want - 1);
      var n := Min(|q|, want);
      assert [q[0]] + q[1..][..n - 1] == q[..n];
      assert q[1..][n - 1..] == q[n..];
    }
  }

  lemma WrapKeepsIndex(cap: nat, a: nat, i: nat)
    requires IsPow2(cap) && cap < WORD64
    ensures 0 < cap && (a % WORD64 + i) % cap == (a + i) % cap
  {
    Pow2Divides64(cap);
    ModOfMod(a, cap, WORD64 / cap);
    ModAddMod(a, i, cap);
    ModAddMod(a % WORD64, i, cap);
  }

  lemma DropFront<T>(b: seq<T>, head: nat, q: seq<T>, n: nat)
    requires Holds(b, head, q) && n <= |q| && IsPow2(|b|) && |b| < WORD64
    ensures Holds(b, (head + n) % WORD64, q[n..])
  {
    forall i | 0 <= i < |q| - n ensures b[((head + n) % WORD64 + i) % |b|] == q[n..][i] {
      WrapKeepsIndex(|b|, head + n, i);
    }
  }

  /** Counter arithmetic modulo 2^64. */
  lemma CounterAhead(head: nat, tail: nat, n: nat)
    requires head < WORD64 && tail < WORD64
    ensures var len := (tail - head) % WORD64;
            && (tail + n) % WORD64 == (head + len + n) % WORD64
            && (len + n < WORD64 ==> ((tail + n) % WORD64 - head) % WORD64 == len + n)
  {
    var len := (tail - head) % WORD64;
    ModAddMod(tail - head, head, WORD64);
    ModSmall(tail, WORD64);
    ModAddMod(head + len, n, WORD64);
    if len + n < WORD64 {
      var back: int := head;
      ModAddMod(head + len + n, -back, WORD64);
      ModSmall(len + n, WORD64);
    }
  }

  lemma CounterBehind(head: nat, tail: nat, n: nat)
    requires n <= (tail - head) % WORD64
    ensures (tail - (head + n) % WORD64) % WORD64 == (tail - head) % WORD64 - n
  {
    ModSubMod(tail, head + n, WORD64);
    var back: int := n;
    ModAddMod(tail - head, -back, WORD64);
    ModSmall((tail - head) % WORD64 - n, WORD64);
  }

  class SpscQueue<T(0)> {
    var head: nat
    var tail: nat
    const buffer: array<T>

    ghost predicate Valid()
      reads this
    {
      && IsPow2(buffer.Length) && 0 < buffer.Length < WORD64
      && head < WORD64 && tail < WORD64
      && Len() <= buffer.Length
    }

    function Len(): nat
      reads this
    {
      (tail - head) % WORD64
    }

    ghost function Contents(): (q: seq<T>)
      requires Valid()
      reads this, buffer
      ensures |q| == Len() && Holds(buffer[..], head, q)
    {
      var b, h := buffer[..], head;
      seq(Len(), i requires 0 <= i => b[(h + i) % |b|])
    }

    constructor (capacity: nat)
      requires IsPow2(capacity) && capacity < WORD64
      ensures Valid() && Contents() == [] && buffer.Length == capacity && fresh(buffer)
    {
      head, tail := 0, 0;
      buffer := new T[capacity];
      ModSmall(0, WORD64);
      Pow2Divides64(capacity);
    }

    /** The ring determines the contents. */
    lemma ContentsAre(q: seq<T>)
      requires Valid() && |q| == Len() && Holds(buffer[..], head, q)
      ensures Contents() == q
    {
      forall i | 0 <= i < |q| ensures Contents()[i] == q[i] {
        assert buffer[..][(head + i) % buffer.Length] == q[i];
      }
    }

    lemma TailIsBehindQueue()
      requires Valid()
      ensures tail % buffer.Length == (head + Len()) % buffer.Length
    {
      CounterAhead(head, tail, 0);
      ModSmall(tail, WORD64);
      WrapKeepsIndex(buffer.Length, head + Len(), 0);
    }

    method Push(value: T) returns (ok: bool)
      requires Valid()
      modifies this`tail, buffer
      ensures Valid() && ok == (|old(Contents())| < buffer.Length)
      ensures Contents() == if ok then old(Contents()) + [value] else old(Contents())
    {
      ok := (tail - head) % WORD64 != buffer.Length;
      if ok {
        ghost var q, b := Contents(), buffer[..];
        var idx := tail % buffer.Length;
        TailIsBehindQueue();
        RunExtends(b, head, q, idx, [value]);
        CounterAhead(head, tail, 1);
        buffer[idx] := value;
        assert buffer[..] == b[..idx] + [value] + b[idx + 1..];
        tail := (tail + 1) % WORD64;
        ContentsAre(q + [value]);
      }
    }

    method Pop() returns (r: Option<T>)
      requires Valid()
      modifies this`head
      ensures Valid()
      ensures r == if old(Contents()) == [] then None else Some(old(Contents())[0])
      ensures Contents() == if old(Contents()) == [] then [] else old(Contents())[1..]
    {
      ghost var q := Contents();
      if head == tail {
        ModSmall(0, WORD64);
        r := None;
      } else {
        if Len() == 0 { ModInjective(tail - head, 0, WORD64); }
        r := Some(buffer[head % buffer.Length]);
        CounterBehind(head, tail, 1);
        DropFront(buffer[..], head, q, 1);
        head := (head + 1) % WORD64;
        ContentsAre(q[1..]);
      }
    }

    /** Bulk push: at most two straight runs, then one store of `tail`.  It stores what that
        many single pushes would store. */
    method PushSlice(src: seq<T>) returns (n: nat)
      requires Valid()
      modifies this`tail, buffer
      ensures Valid()
      ensures n == Min(buffer.Length - |old(Contents())|, |src|)
      ensures Contents() == old(Contents()) + src[..n]
      ensures (Contents(), n) == PushAll(old(Contents()), buffer.Length, src)
    {
      ghost var q := Contents();
      PushAllStoresPrefix(q, buffer.Length, src);
      n := Min(buffer.Length - (tail - head) % WORD64, |src|);
      if n == 0 {
        assert q + src[..0] == q;
        return;
      }
      StoreRuns(src, n, q);
      CounterAhead(head, tail, n);
      tail := (tail + n) % WORD64;
      ContentsAre(q + src[..n]);
    }

    method StoreRuns(src: seq<T>, n: nat, ghost q: seq<T>)
      requires Valid() && q == Contents() && n <= Min(buffer.Length - Len(), |src|)
      modifies buffer
      ensures Holds(buffer[..], head, q + src[..n])
    {
      var start := tail % buffer.Length;
      var first := Min(n, buffer.Length - start);
      TailIsBehindQueue();
      RunsExtend(buffer[..], head, q, src, n, start, first);
      CopyInto(buffer, start, src, 0, first);
      if n > first {
        CopyInto(buffer, 0, src, first, n - first);
      } else {
        assert buffer[..] == buffer[..][..0] + src[first..n] + buffer[..][n - first..];
      }
    }

    /** Bulk pop into the front of `dst`, like that many single pops. */
    method PopSlice(dst: array<T>) returns (n: nat)
      requires Valid() && dst != buffer
      modifies this`head, dst
      ensures Valid()
      ensures n == Min(|old(Contents())|, dst.Length)
      ensures dst[..] == old(Contents())[..n] + old(dst[..])[n..]
      ensures Contents() == old(Contents())[n..]
      ensures (Contents(), dst[..n]) == PopAll(old(Contents()), dst.Length)
    {
      hide Holds;
      hide PopAll;
      ghost var q := Contents();
      PopAllTakesPrefix(q, dst.Length);
      n := Min((tail - head) % WORD64, dst.Length);
      if n == 0 {
        assert q[0..] == q;
        return;
      }
      LoadRuns(dst, n, q);
      CounterBehind(head, tail, n);
      DropFront(buffer[..], head, q, n);
      head := (head + n) % WORD64;
      ContentsAre(q[n..]);
      assert dst[..n] == q[..n];
    }

    method LoadRuns(dst: array<T>, n: nat, ghost q: seq<T>)
      requires buffer.Length > 0 && Holds(buffer[..], head, q) && n <= Min(|q|, dst.Length) && dst != buffer
      modifies dst
      ensures dst[..] == q[..n] + old(dst[..])[n..]
    {
      hide Holds;
      var start := head % buffer.Length;
      var first := Min(n, buffer.Length - start);
      RunsAreFront(buffer[..], head, q, n);
      var ring := buffer[..];
      TwoCopies(dst[..], ring, start, first, n);
      CopyInto(dst, 0, ring, start, first);
      if n > first {
        CopyInto(dst, first, ring, 0, n - first);
      }
    }
  }
}
