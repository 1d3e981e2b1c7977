/** The tagged free list behind `TreiberStack`, `BufferPool` and the context pool's
    `alloc_context` / `free_context`.

    A thread performs one access of the source per step.  `updates`, `free`, `held`,
    `pusher` and the `when` components are history: they say how many exchanges have
    succeeded, what the list is, who holds the indices outside it and how old a snapshot
    is.  No step reads them. */
module FreeList {
  import opened Arith
  import opened Wrappers

  /** u32::MAX: the end of the list, and one more than the largest usable index. */
  const NIL: nat := 0xFFFF_FFFF

  /** The 64-bit head word, as its two halves. */
  datatype Head = Head(idx: nat, tag: nat)

  datatype Pc =
    | Idle
    | PushLoad(i: nat)
    | PushLink(i: nat, seen: Head, when: nat)
    | PushCas(i: nat, seen: Head, when: nat)
    | PopLoad
    | PopNext(seen: Head, when: nat)
    | PopCas(seen: Head, when: nat, succ: nat)
    | PopDone(result: Option<nat>)

  datatype State = State(
    head: Head,
    next: seq<nat>,
    threads: seq<Pc>,
    updates: nat,
    free: seq<nat>,
    held: set<nat>,
    pusher: map<nat, nat>)

  datatype Event =
    | BeginPush(t: nat, i: nat)
    | BeginPop(t: nat)
    | Advance(t: nat, spurious: bool)
    | Finish(t: nat)

  /** Indices that the list can ever hand out: u32::MAX itself is never one. */
  function Size(n: nat): nat { Min(n, NIL) }

  /** `BufferPool::new` and `ContextPool::new`: slot i links to i + 1, cut to 32 bits. */
  function Linked(n: nat, threads: nat): (s: State)
    requires 0 < n
  {
    State(Head(0, 0),
          seq(n, i requires 0 <= i => if i == n - 1 then NIL else (i + 1) % WORD32),
          seq(threads, _ => Idle), 0,
          Upto(Size(n)), {}, map[])
  }

  /** `TreiberStack::new`: an empty list; every index belongs to the constructing caller. */
  function Empty(n: nat, threads: nat): (s: State) {
    State(Head(NIL, 0),
          seq(n, i requires 0 <= i => if i == n - 1 then NIL else 0),
          seq(threads, _ => Idle), 0,
          [], set i | i in Upto(Size(n)), map[])
  }

  predicate InRange(s: State, pc: Pc) {
    match pc
    case PushLoad(i) => i < |s.next|
    case PushLink(i, _, _) => i < |s.next|
    case PushCas(i, _, _) => i < |s.next|
    case PopNext(seen, _) => seen.idx < |s.next|
    case _ => true
  }

  /** A caller may only push an index that it holds. */
  predicate Enabled(s: State, e: Event) {
    && e.t < |s.threads|
    && match e
       case BeginPush(t, i) => s.threads[t].Idle? && i in s.held && i < |s.next|
       case BeginPop(t) => s.threads[t].Idle?
       case Advance(t, _) => !s.threads[t].Idle? && !s.threads[t].PopDone? && InRange(s, s.threads[t])
       case Finish(t) => s.threads[t].PopDone?
  }

  function Goto(s: State, t: nat, pc: Pc): State
    requires t < |s.threads|
  {
    s.(threads := s.threads[t := pc])
  }

  function Bump(h: Head, idx: nat): Head {
    Head(idx, (h.tag + 1) % WORD32)
  }

  function Looked(s: State): Pc {
    if s.head.idx == NIL then PopDone(None) else PopNext(s.head, s.updates)
  }

  function Step(s: State, e: Event): (s': State)
    requires Enabled(s, e)
    ensures |s'.threads| == |s.threads| && |s'.next| == |s.next|
  {
    match e
    case BeginPush(t, i) => Goto(s.(held := s.held - {i}, pusher := s.pusher[i := t]), t, PushLoad(i))
    case BeginPop(t) => Goto(s, t, PopLoad)
    case Finish(t) => Goto(s, t, Idle)
    case Advance(t, spurious) =>
      match s.threads[t]
      case PushLoad(i) => Goto(s, t, PushLink(i, s.head, s.updates))
      case PushLink(i, seen, w) => Goto(s.(next := s.next[i := seen.idx]), t, PushCas(i, seen, w))
      case PushCas(i, seen, _) =>
        if s.head == seen && !spurious then
          Goto(s.(head := Bump(seen, i), updates := s.updates + 1, free := [i] + s.free, pusher := s.pusher - {i}),
               t, Idle)
        else Goto(s, t, PushLink(i, s.head, s.updates))
      case PopLoad => Goto(s, t, Looked(s))
      case PopNext(seen, w) => Goto(s, t, PopCas(seen, w, s.next[seen.idx]))
      case PopCas(seen, _, succ) =>
        if s.head == seen && !spurious then
          Goto(s.(head := Bump(seen, succ), updates := s.updates + 1,
                  free := if s.free == [] then [] else s.free[1..], held := s.held + {seen.idx}),
               t, PopDone(Some(seen.idx)))
        else Goto(s, t, Looked(s))
      case _ => s
  }

  /** The thread's snapshot is younger than `delay` updates when it tries its exchange. */
  predicate PromptWithin(s: State, e: Event, delay: nat)
    requires e.t < |s.threads|
  {
    e.Advance? ==>
      match s.threads[e.t]
      case PushCas(_, _, w) => s.updates < w + delay
      case PopCas(_, w, _) => s.updates < w + delay
      case _ => true
  }

  /** The delay a 32-bit tag allows. */
  predicate Prompt(s: State, e: Event)
    requires e.t < |s.threads|
  {
    PromptWithin(s, e, WORD32)
  }

  predicate Valid(s: State, es: seq<Event>)
    decreases |es|
  {
    es == [] || (Enabled(s, es[0]) && Valid(Step(s, es[0]), es[1..]))
  }

  predicate AllWithin(s: State, es: seq<Event>, delay: nat)
    requires Valid(s, es)
    decreases |es|
  {
    es == [] || (PromptWithin(s, es[0], delay) && AllWithin(Step(s, es[0]), es[1..], delay))
  }

  predicate AllPrompt(s: State, es: seq<Event>)
    requires Valid(s, es)
  {
    AllWithin(s, es, WORD32)
  }

  function Run(s: State, es: seq<Event>): (s': State)
    requires Valid(s, es)
    ensures |s'.threads| == |s.threads| && |s'.next| == |s.next|
    decreases |es|
  {
    if es == [] then s else Run(Step(s, es[0]), es[1..])
  }
}
