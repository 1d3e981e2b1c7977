/** What the free list promises its users, and how much delay its tag can absorb. */
module FreeListTheorems {
  import opened Arith
  import opened Wrappers
  import opened FreeList
  import opened FreeListSafety

  /** No index is on the list and in somebody's hands, and the list has no repetition. */
  ghost predicate Sound(s: State) {
    && IsList(s.head.idx, s.next, s.free)
    && NoDup(s.free)
    && forall i :: i in s.free ==> i !in s.held && i !in s.pusher
  }

  /** From either constructor: in every prompt run the list is acyclic and duplicate-free
      and, with the held and in-transit indices, is exactly the indices of the pool. */
  lemma AlwaysPartitioned(n: nat, threads: nat, linked: bool, es: seq<Event>)
    requires linked ==> 0 < n
    requires var s := if linked then Linked(n, threads) else Empty(n, threads); Valid(s, es) && AllPrompt(s, es)
    ensures var f := Run(if linked then Linked(n, threads) else Empty(n, threads), es);
            Sound(f) && Partition(f, Size(n))
  {
    if linked {
      LinkedInv(n, threads);
      RunKeepsInv(Linked(n, threads), Size(n), es);
    } else {
      EmptyInv(n, threads);
      RunKeepsInv(Empty(n, threads), Size(n), es);
    }
  }

  /** A pop whose exchange wins returns the front index of the list, takes it off the list and
      changes nothing else; its caller becomes the only holder of an index that nobody had. */
  lemma PopHandsOutFront(s: State, size: nat, t: nat)
    requires Inv(s, size) && Enabled(s, Advance(t, false)) && Prompt(s, Advance(t, false))
    requires s.threads[t].PopCas? && s.threads[t].seen == s.head
    ensures s.free != [] && s.free[0] < size && s.free[0] !in s.held && s.free[0] !in s.pusher
    ensures var s' := Step(s, Advance(t, false));
            && s'.threads[t] == PopDone(Some(s.free[0])) && s'.free == s.free[1..]
            && s'.held == s.held + {s.free[0]} && s'.pusher == s.pusher && s'.next == s.next
  {
    PopLands(s, size, t);
    assert s.free[0] in s.free;
  }

  /** A pop looks at the head when it starts, and again after each failed exchange.  Whenever it
      looks, it reports exhaustion if and only if the list is empty at that instant. */
  lemma PopEmptyIff(s: State, size: nat, t: nat, spurious: bool)
    requires Inv(s, size) && Enabled(s, Advance(t, spurious))
    requires s.threads[t].PopLoad? || (s.threads[t].PopCas? && (spurious || s.head != s.threads[t].seen))
    ensures Step(s, Advance(t, spurious)).threads[t] == PopDone(None) <==> s.free == []
  {
    if s.free != [] { assert s.free[0] in s.free; }
  }

  // ----- BufferPool -----

  /** `get_ptr`, as an offset from the arena. */
  function ChunkStart(chunkSize: nat, i: nat): nat { i * chunkSize }

  /** The two chunks have no byte in common. */
  predicate Apart(chunkSize: nat, i: nat, j: nat) {
    || ChunkStart(chunkSize, i) + chunkSize <= ChunkStart(chunkSize, j)
    || ChunkStart(chunkSize, j) + chunkSize <= ChunkStart(chunkSize, i)
  }

  /** In every prompt run of a pool, the chunks in use are byte ranges inside the arena that
      do not overlap each other. */
  lemma HeldChunksDisjoint(chunks: nat, chunkSize: nat, threads: nat, es: seq<Event>, i: nat, j: nat)
    requires 0 < chunks && 0 < chunkSize && Valid(Linked(chunks, threads), es) && AllPrompt(Linked(chunks, threads), es)
    requires var f := Run(Linked(chunks, threads), es); i in f.held && j in f.held && i != j
    ensures ChunkStart(chunkSize, i) + chunkSize <= chunks * chunkSize
    ensures Apart(chunkSize, i, j)
  {
    AlwaysPartitioned(chunks, threads, true, es);
    assert i < Size(chunks) && j < Size(chunks);
    ChunksApart(chunks, chunkSize, i, j);
  }

  lemma ChunksApart(chunks: nat, chunkSize: nat, i: nat, j: nat)
    requires i < chunks && j < chunks && i != j
    ensures ChunkStart(chunkSize, i) + chunkSize <= chunks * chunkSize
    ensures Apart(chunkSize, i, j)
  {
    MulMonotone(i + 1, chunks, chunkSize);
    if i < j { MulMonotone(i + 1, j, chunkSize); } else { MulMonotone(j + 1, i, chunkSize); }
  }

  // ----- what happens without promptness -----

  /** A run in which no thread is overtaken between its look and its exchange. */
  predicate Eager(s: State, es: seq<Event>) { Valid(s, es) && AllWithin(s, es, 1) }

  lemma {:induction false} RunAppend(s: State, a: seq<Event>, b: seq<Event>, delay: nat)
    requires Valid(s, a) && Valid(Run(s, a), b) && AllWithin(s, a, delay) && AllWithin(Run(s, a), b, delay)
    ensures Valid(s, a + b) && Run(s, a + b) == Run(Run(s, a), b) && AllWithin(s, a + b, delay)
    decreases |a|
  {
    if a == [] {
      assert a + b == b;
    } else {
      assert (a + b)[1..] == a[1..] + b;
      RunAppend(Step(s, a[0]), a[1..], b, delay);
    }
  }

  lemma Prepend(s: State, e: Event, es: seq<Event>) returns (r: seq<Event>)
    requires Enabled(s, e) && PromptWithin(s, e, 1) && Eager(Step(s, e), es)
    ensures Eager(s, r) && Run(s, r) == Run(Step(s, e), es)
  {
    r := [e] + es;
    assert r[1..] == es;
  }

  lemma {:induction false} WithinMore(s: State, es: seq<Event>, delay: nat, more: nat)
    requires Valid(s, es) && AllWithin(s, es, delay) && delay <= more
    ensures AllWithin(s, es, more)
    decreases |es|
  {
    if es != [] { WithinMore(Step(s, es[0]), es[1..], delay, more); }
  }

  /** The state after an uncontended pop, and after an uncontended push. */
  function Popped(s: State): State
    requires s.head.idx < |s.next|
  {
    s.(head := Bump(s.head, s.next[s.head.idx]), updates := s.updates + 1,
       free := if s.free == [] then [] else s.free[1..], held := s.held + {s.head.idx})
  }

  function Pushed(s: State, i: nat): State
    requires i < |s.next|
  {
    s.(head := Bump(s.head, i), next := s.next[i := s.head.idx], updates := s.updates + 1,
       free := [i] + s.free, held := s.held - {i})
  }

  lemma SoloPop(s: State, t: nat) returns (es: seq<Event>)
    requires t < |s.threads| && s.threads[t].Idle? && s.head.idx < |s.next| && s.head.idx != NIL
    ensures Eager(s, es) && Run(s, es) == Popped(s)
  {
    var go := Advance(t, false);
    var s1 := Step(s, BeginPop(t));
    var s2 := Step(s1, go);
    var s3 := Step(s2, go);
    var s4 := Step(s3, go);
    assert Step(s4, Finish(t)).threads == s.threads;
    es := [];
    es := Prepend(s4, Finish(t), es);
    es := Prepend(s3, go, es);
    es := Prepend(s2, go, es);
    es := Prepend(s1, go, es);
    es := Prepend(s, BeginPop(t), es);
  }

  lemma SoloPush(s: State, t: nat, i: nat) returns (es: seq<Event>)
    requires t < |s.threads| && s.threads[t].Idle? && i < |s.next| && i in s.held && i !in s.pusher
    ensures Eager(s, es) && Run(s, es) == Pushed(s, i)
  {
    var go := Advance(t, false);
    var s1 := Step(s, BeginPush(t, i));
    var s2 := Step(s1, go);
    var s3 := Step(s2, go);
    var s4 := Step(s3, go);
    assert s4.threads == s.threads && s4.pusher == s.pusher;
    es := [];
    es := Prepend(s3, go, es);
    es := Prepend(s2, go, es);
    es := Prepend(s1, go, es);
    es := Prepend(s, BeginPush(t, i), es);
  }

  /** Popping index 0 and pushing it back changes nothing but the tag. */
  predicate Cyclable(s: State) {
    && |s.threads| == 2 && s.threads[1].Idle? && |s.next| == 4
    && s.free == [0, 3] && s.head.idx == 0 && s.next[0] == 3
    && s.held == {1, 2} && s.pusher == map[] && s.head.tag == s.updates % WORD32
  }

  function Later(s: State, k: nat): State {
    s.(head := Head(s.head.idx, (s.updates + 2 * k) % WORD32), updates := s.updates + 2 * k)
  }

  lemma OneCycle(s: State) returns (es: seq<Event>)
    requires Cyclable(s)
    ensures Eager(s, es) && Run(s, es) == Later(s, 1)
  {
    var pop := SoloPop(s, 1);
    var s1 := Popped(s);
    var push := SoloPush(s1, 1, 0);
    RunAppend(s, pop, push, 1);
    es := pop + push;
    var f := Pushed(s1, 0);
    ModAddMod(s.updates, 1, WORD32);
    ModAddMod(s.updates + 1, 1, WORD32);
    assert f.head == Later(s, 1).head;
    assert f.next == s.next;
    assert f.free == s.free;
    assert f.held == s.held;
  }

  lemma {:induction false} Cycles(s: State, k: nat) returns (es: seq<Event>)
    requires Cyclable(s)
    ensures Eager(s, es) && Run(s, es) == Later(s, k)
    decreases k
  {
    if k == 0 {
      es := [];
      assert Later(s, 0) == s;
    } else {
      hide Valid;
      hide Run;
      var first := OneCycle(s);
      var s1 := Later(s, 1);
      var rest := Cycles(s1, k - 1);
      RunAppend(s, first, rest, 1);
      es := first + rest;
      assert Later(s1, k - 1) == Later(s, k);
    }
  }

  /** Thread 0 has read head 0 and its successor 1 ... */
  function Asleep(): State {
    State(Head(0, 0), [1, 2, 3, NIL], [PopCas(Head(0, 0), 0, 1), Idle], 0, [0, 1, 2, 3], {}, map[])
  }

  lemma FallAsleep() returns (es: seq<Event>)
    ensures Eager(Linked(4, 2), es) && Run(Linked(4, 2), es) == Asleep()
  {
    var s0 := Linked(4, 2);
    var go := Advance(0, false);
    assert s0 == State(Head(0, 0), [1, 2, 3, NIL], [Idle, Idle], 0, [0, 1, 2, 3], {}, map[]);
    var s1 := Step(s0, BeginPop(0));
    var s2 := Step(s1, go);
    es := [];
    es := Prepend(s2, go, es);
    es := Prepend(s1, go, es);
    es := Prepend(s0, BeginPop(0), es);
  }

  /** ... then thread 1 takes 0, 1 and 2 and gives back 0, so that the successor of 0 has
      become 3. */
  function AfterPops(k: nat): State
    requires k <= 3
  {
    State(Head(k, k), [1, 2, 3, NIL], Asleep().threads, k, [0, 1, 2, 3][k..], set i | i in [0, 1, 2][..k], map[])
  }

  lemma NextPop(k: nat)
    requires k < 3
    ensures Popped(AfterPops(k)) == AfterPops(k + 1)
  {
    assert [0, 1, 2][..k + 1] == [0, 1, 2][..k] + [k];
  }

  lemma {:induction false} Pops(k: nat) returns (es: seq<Event>)
    requires k <= 3
    ensures Eager(AfterPops(k), es) && Run(AfterPops(k), es) == AfterPops(3)
    decreases 3 - k
  {
    es := [];
    if k < 3 {
      var pop := SoloPop(AfterPops(k), 1);
      NextPop(k);
      var rest := Pops(k + 1);
      RunAppend(AfterPops(k), pop, rest, 1);
      es := pop + rest;
    }
  }

  function Stale(): State {
    State(Head(0, 4), [3, 2, 3, NIL], Asleep().threads, 4, [0, 3], {1, 2}, map[])
  }

  lemma GiveBack() returns (es: seq<Event>)
    ensures Eager(AfterPops(3), es) && Run(AfterPops(3), es) == Stale()
  {
    var s := AfterPops(3);
    assert s.free == [3];
    assert [0, 1, 2][..3] == [0, 1, 2];
    assert s.held == {0, 1, 2};
    es := SoloPush(s, 1, 0);
    assert Pushed(s, 0).held == {1, 2};
    assert Pushed(s, 0).free == [0, 3];
  }

  lemma BecomeStale() returns (es: seq<Event>)
    ensures Eager(Linked(4, 2), es) && Run(Linked(4, 2), es) == Stale()
  {
    var sleep := FallAsleep();
    var pops := Pops(0);
    assert Asleep() == AfterPops(0);
    var back := GiveBack();
    RunAppend(AfterPops(0), pops, back, 1);
    RunAppend(Linked(4, 2), sleep, pops + back, 1);
    es := sleep + (pops + back);
  }

  /** A thread that sleeps through precisely 2^32 updates finds its head and tag again, installs
      the stale successor and puts an index that is in use at the head of the list. */
  lemma TagWrapBreaksTheList() returns (es: seq<Event>)
    ensures Valid(Linked(4, 2), es) && AllWithin(Linked(4, 2), es, WORD32 + 1)
    ensures var f := Run(Linked(4, 2), es); f.head.idx == 1 && 1 in f.held && f.updates == WORD32 + 1
    ensures !Sound(Run(Linked(4, 2), es))
  {
    var s0 := Linked(4, 2);
    var before := BecomeStale();
    var s := Stale();
    var cycles := Cycles(s, (WORD32 - 4) / 2);
    var w := Later(s, (WORD32 - 4) / 2);
    var last := WakeUp(w);
    WithinMore(s0, before, 1, WORD32 + 1);
    WithinMore(s, cycles, 1, WORD32 + 1);
    RunAppend(s, cycles, last, WORD32 + 1);
    RunAppend(s0, before, cycles + last, WORD32 + 1);
    es := before + (cycles + last);
  }

  lemma WakeUp(s: State) returns (es: seq<Event>)
    requires s == Later(Stale(), (WORD32 - 4) / 2)
    ensures Valid(s, es) && AllWithin(s, es, WORD32 + 1)
    ensures var f := Run(s, es); f.head.idx == 1 && 1 in f.held && f.updates == WORD32 + 1 && !Sound(f)
  {
    assert s.head == Head(0, 0) && s.updates == WORD32;
    es := [Advance(0, false)];
    var f := Step(s, Advance(0, false));
    assert es[1..] == [];
    assert Run(s, es) == f;
    assert f.head.idx == 1 && f.free == [3];
  }

  function Start(n: nat, threads: nat, linked: bool): State
    requires linked ==> 0 < n
  {
    if linked then Linked(n, threads) else Empty(n, threads)
  }

  /** In every run whose threads are delayed by fewer than `delay` updates the list is sound. */
  ghost predicate SafeWithin(delay: nat) {
    forall n, threads, linked: bool, es ::
      (linked ==> 0 < n) && Valid(Start(n, threads, linked), es) && AllWithin(Start(n, threads, linked), es, delay) ==>
        Sound(Run(Start(n, threads, linked), es))
  }

  /** How much delay the tag absorbs, exactly. */
  lemma SafeWithinIff(delay: nat)
    ensures SafeWithin(delay) <==> delay <= WORD32
  {
    if delay <= WORD32 {
      forall n, threads, linked: bool, es
        | (linked ==> 0 < n) && Valid(Start(n, threads, linked), es) && AllWithin(Start(n, threads, linked), es, delay)
        ensures Sound(Run(Start(n, threads, linked), es))
      {
        WithinMore(Start(n, threads, linked), es, delay, WORD32);
        AlwaysPartitioned(n, threads, linked, es);
      }
    } else {
      var es := TagWrapBreaksTheList();
      WithinMore(Linked(4, 2), es, WORD32 + 1, delay);
      assert Start(4, 2, true) == Linked(4, 2);
    }
  }
}
