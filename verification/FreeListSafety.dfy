/** ABA safety of the tagged free list, for any number of threads and any interleaving in
    which no thread sleeps through 2^32 updates between its load and its exchange. */
module FreeListSafety {
  import opened Arith
  import opened FreeList

  ghost predicate NoDup(l: seq<nat>) {
    forall i, j :: 0 <= i < j < |l| ==> l[i] != l[j]
  }

  function After(l: seq<nat>, k: nat): nat {
    if k + 1 < |l| then l[k + 1] else NIL
  }

  ghost predicate IsList(head: nat, next: seq<nat>, l: seq<nat>) {
    && head == (if l == [] then NIL else l[0])
    && (forall k :: 0 <= k < |l| ==> l[k] < |next| && next[l[k]] == After(l, k))
  }

  lemma ConsIsList(head: nat, next: seq<nat>, l: seq<nat>, i: nat)
    requires IsList(head, next, l) && i < |next| && next[i] == head
    ensures IsList(i, next, [i] + l)
  {
    var r := [i] + l;
    forall k | 0 <= k < |r| ensures r[k] < |next| && next[r[k]] == After(r, k) {
      if k > 0 { assert r[k] == l[k - 1] && After(r, k) == After(l, k - 1); }
    }
  }

  lemma HeadIsFirst(head: nat, next: seq<nat>, l: seq<nat>)
    requires IsList(head, next, l) && head != NIL
    ensures l != [] && head == l[0] && l[0] < |next|
  {
  }

  lemma TailIsList(head: nat, next: seq<nat>, l: seq<nat>)
    requires IsList(head, next, l) && l != []
    ensures IsList(next[head], next, l[1..])
  {
    var r := l[1..];
    forall k | 0 <= k < |r| ensures r[k] < |next| && next[r[k]] == After(r, k) {
      assert r[k] == l[k + 1] && After(r, k) == After(l, k + 1);
    }
    assert next[l[0]] == After(l, 0);
  }

  /** Free, held and in-transit indices are the indices below `size`, each once. */
  ghost predicate Partition(s: State, size: nat) {
    && NoDup(s.free)
    && (forall i :: i in s.free ==> i !in s.held && i !in s.pusher)
    && (forall i :: i in s.held ==> i !in s.pusher)
    && (forall i: nat :: i < size <==> i in s.free || i in s.held || i in s.pusher)
  }

  ghost predicate Snapshot(s: State, size: nat, seen: Head, w: nat) {
    && w <= s.updates
    && seen.tag == w % WORD32
    && (w == s.updates ==> seen == s.head)
    && (seen.idx == NIL || seen.idx < size)
  }

  predicate Pushes(pc: Pc) {
    pc.PushLoad? || pc.PushLink? || pc.PushCas?
  }

  ghost predicate PcOk(s: State, size: nat, t: nat)
    requires t < |s.threads|
  {
    && (Pushes(s.threads[t]) ==> s.threads[t].i in s.pusher && s.pusher[s.threads[t].i] == t)
    && match s.threads[t]
       case PushLink(i, seen, w) => Snapshot(s, size, seen, w)
       case PushCas(i, seen, w) => Snapshot(s, size, seen, w) && i < |s.next| && s.next[i] == seen.idx
       case PopNext(seen, w) => Snapshot(s, size, seen, w) && seen.idx < size
       case PopCas(seen, w, succ) =>
         Snapshot(s, size, seen, w) && seen.idx < size <= |s.next| && (w == s.updates ==> succ == s.next[seen.idx])
       case _ => true
  }

  ghost predicate Inv(s: State, size: nat) {
    && size <= NIL
    && size <= |s.next|
    && s.head.tag == s.updates % WORD32
    && IsList(s.head.idx, s.next, s.free)
    && Partition(s, size)
    && (forall t :: 0 <= t < |s.threads| ==> PcOk(s, size, t))
    && (forall i :: i in s.pusher ==>
          s.pusher[i] < |s.threads| && Pushes(s.threads[s.pusher[i]]) && s.threads[s.pusher[i]].i == i)
  }

  lemma LinkedInv(n: nat, threads: nat)
    requires 0 < n
    ensures Inv(Linked(n, threads), Size(n))
  {
    var s := Linked(n, threads);
    forall k | 0 <= k < |s.free| ensures s.next[s.free[k]] == After(s.free, k) {
      ModSmall(k + 1, WORD32);
    }
    forall i: nat ensures i < Size(n) <==> i in s.free || i in s.held || i in s.pusher {
      if i < Size(n) { assert s.free[i] == i; }
    }
  }

  lemma EmptyInv(n: nat, threads: nat)
    ensures Inv(Empty(n, threads), Size(n))
  {
    var s := Empty(n, threads);
    forall i: nat ensures i < Size(n) <==> i in s.held {
      if i < Size(n) { assert Upto(Size(n))[i] == i; }
    }
  }

  /** The tag comparison of a prompt thread succeeds only if nothing happened in between. */
  lemma PromptExchange(s: State, size: nat, seen: Head, w: nat)
    requires Snapshot(s, size, seen, w) && s.head == seen && s.head.tag == s.updates % WORD32 && s.updates < w + WORD32
    ensures w == s.updates
  {
    ModInjective(s.updates, w, WORD32);
  }

  /** After a successful exchange every other snapshot is out of date. */
  lemma OthersAge(s: State, s': State, size: nat, u: nat)
    requires u < |s.threads| && u < |s'.threads| && PcOk(s, size, u) && s'.threads[u] == s.threads[u]
    requires s'.next == s.next && s'.updates == s.updates + 1
    requires Pushes(s.threads[u]) ==> s.threads[u].i in s'.pusher && s'.pusher[s.threads[u].i] == u
    ensures PcOk(s', size, u)
  {
  }

  lemma PushPartition(s: State, s': State, size: nat, i: nat)
    requires Partition(s, size) && i in s.pusher
    requires s'.free == [i] + s.free && s'.held == s.held && s'.pusher == s.pusher - {i}
    ensures Partition(s', size)
  {
    assert forall j :: j in s'.free <==> j == i || j in s.free;
    assert i !in s.free;
  }

  lemma PopPartition(s: State, s': State, size: nat, i: nat)
    requires Partition(s, size) && s.free != [] && s.free[0] == i
    requires s'.free == s.free[1..] && s'.held == s.held + {i} && s'.pusher == s.pusher
    ensures Partition(s', size)
  {
    assert s.free == [i] + s'.free;
    assert forall j :: j in s.free <==> j == i || j in s'.free;
    assert i !in s'.free;
  }

  lemma PushLands(s: State, size: nat, t: nat)
    requires Inv(s, size) && t < |s.threads| && s.threads[t].PushCas? && s.threads[t].seen == s.head
    requires Enabled(s, Advance(t, false)) && Prompt(s, Advance(t, false))
    ensures Inv(Step(s, Advance(t, false)), size)
  {
    hide IsList;
    hide Partition;
    assert PcOk(s, size, t);
    var s' := Step(s, Advance(t, false));
    var i := s.threads[t].i;
    assert i in s.pusher;
    PromptExchange(s, size, s.threads[t].seen, s.threads[t].when);
    ModAddMod(s.updates, 1, WORD32);
    ConsIsList(s.head.idx, s.next, s.free, i);
    PushPartition(s, s', size, i);
    forall u | 0 <= u < |s'.threads| ensures PcOk(s', size, u) {
      if u != t { assert PcOk(s, size, u); OthersAge(s, s', size, u); }
    }
  }

  lemma PopLands(s: State, size: nat, t: nat)
    requires Inv(s, size) && t < |s.threads| && s.threads[t].PopCas? && s.threads[t].seen == s.head
    requires Enabled(s, Advance(t, false)) && Prompt(s, Advance(t, false))
    ensures Inv(Step(s, Advance(t, false)), size)
    ensures s.free != [] && s.threads[t].seen.idx == s.free[0]
  {
    hide IsList;
    hide Partition;
    assert PcOk(s, size, t);
    var s' := Step(s, Advance(t, false));
    PromptExchange(s, size, s.threads[t].seen, s.threads[t].when);
    ModAddMod(s.updates, 1, WORD32);
    HeadIsFirst(s.head.idx, s.next, s.free);
    TailIsList(s.head.idx, s.next, s.free);
    PopPartition(s, s', size, s.free[0]);
    forall u | 0 <= u < |s'.threads| ensures PcOk(s', size, u) {
      if u != t { assert PcOk(s, size, u); OthersAge(s, s', size, u); }
    }
  }

  /** Linking writes the next field of an index that is in transit, hence off the list. */
  lemma LinkKeeps(s: State, size: nat, t: nat)
    requires Inv(s, size) && t < |s.threads| && s.threads[t].PushLink? && Enabled(s, Advance(t, false))
    ensures Inv(Step(s, Advance(t, false)), size)
  {
    assert PcOk(s, size, t);
    var s' := Step(s, Advance(t, false));
    assert s.threads[t].i !in s.free;
    forall u | 0 <= u < |s'.threads| ensures PcOk(s', size, u) { assert PcOk(s, size, u); }
  }

  lemma LocalKeeps(s: State, size: nat, t: nat, pc: Pc)
    requires Inv(s, size) && t < |s.threads| && PcOk(Goto(s, t, pc), size, t)
    requires Pushes(s.threads[t]) == Pushes(pc) && (Pushes(pc) ==> pc.i == s.threads[t].i)
    ensures Inv(Goto(s, t, pc), size)
  {
    var s' := Goto(s, t, pc);
    forall u | 0 <= u < |s'.threads| ensures PcOk(s', size, u) {
      if u != t { assert PcOk(s, size, u); }
    }
  }

  lemma BeginPushKeeps(s: State, size: nat, t: nat, i: nat)
    requires Inv(s, size) && Enabled(s, BeginPush(t, i))
    ensures Inv(Step(s, BeginPush(t, i)), size)
  {
    var s' := Step(s, BeginPush(t, i));
    forall u | 0 <= u < |s'.threads| ensures PcOk(s', size, u) { assert PcOk(s, size, u); }
  }

  lemma StepKeepsInv(s: State, size: nat, e: Event)
    requires Inv(s, size) && Enabled(s, e) && Prompt(s, e)
    ensures Inv(Step(s, e), size)
  {
    assert PcOk(s, size, e.t);
    match e
    case BeginPush(t, i) => BeginPushKeeps(s, size, t, i);
    case Advance(t, spurious) =>
      match s.threads[t] {
        case PushCas(i, seen, _) =>
          if seen == s.head && !spurious { PushLands(s, size, t); }
          else { SnapshotNow(s, size); LocalKeeps(s, size, t, Step(s, e).threads[t]); }
        case PopCas(seen, _, _) =>
          if seen == s.head && !spurious { PopLands(s, size, t); }
          else { SnapshotNow(s, size); LocalKeeps(s, size, t, Step(s, e).threads[t]); }
        case PushLink(_, _, _) => LinkKeeps(s, size, t);
        case PushLoad(i) => SnapshotNow(s, size); LocalKeeps(s, size, t, PushLink(i, s.head, s.updates));
        case PopLoad => SnapshotNow(s, size); LocalKeeps(s, size, t, Looked(s));
        case PopNext(seen, w) => LocalKeeps(s, size, t, PopCas(seen, w, s.next[seen.idx]));
      }
    case _ => LocalKeeps(s, size, e.t, Step(s, e).threads[e.t]);
  }

  lemma SnapshotNow(s: State, size: nat)
    requires Inv(s, size)
    ensures Snapshot(s, size, s.head, s.updates)
  {
    if s.free != [] { assert s.free[0] in s.free; }
  }

  lemma {:induction false} RunKeepsInv(s: State, size: nat, es: seq<Event>)
    requires Inv(s, size) && Valid(s, es) && AllPrompt(s, es)
    ensures Inv(Run(s, es), size)
    decreases |es|
  {
    if es != [] {
      StepKeepsInv(s, size, es[0]);
      RunKeepsInv(Step(s, es[0]), size, es[1..]);
    }
  }
}
