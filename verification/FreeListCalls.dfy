/** What the callers of the free list are told, over every prompt run: which pops come back empty,
    and who holds the indices that are off the list. */
module FreeListCalls {
  import opened Arith
  import opened Wrappers
  import opened FreeList
  import opened FreeListSafety

  /** The exchange of a pop wins. */
  predicate PopWins(s: State, e: Event)
    requires Enabled(s, e)
  {
    e.Advance? && !e.spurious && s.threads[e.t].PopCas? && s.threads[e.t].seen == s.head
  }

  // ----- the outcome of a call -----

  /** The step changes the list: its head word or a link. */
  predicate Changes(s: State, e: Event)
    requires Enabled(s, e)
  {
    Step(s, e).head != s.head || Step(s, e).next != s.next
  }

  /** Whether thread `t`'s latest call has changed the list. */
  function Touched(was: bool, s: State, e: Event, t: nat): bool
    requires Enabled(s, e)
  {
    if e.t != t then was else if e.BeginPop? || e.BeginPush? then false else was || Changes(s, e)
  }

  function TouchedIn(was: bool, s: State, es: seq<Event>, t: nat): bool
    requires Valid(s, es)
    decreases |es|
  {
    if es == [] then was else TouchedIn(Touched(was, s, es[0], t), Step(s, es[0]), es[1..], t)
  }

  /** A pop has changed the list exactly if it is over with an index. */
  predicate PopFits(pc: Pc, touched: bool) {
    match pc
    case PopLoad => !touched
    case PopNext(_, _) => !touched
    case PopCas(_, _, _) => !touched
    case PopDone(result) => result.Some? <==> touched
    case _ => true
  }

  lemma StepFits(s: State, e: Event, t: nat, was: bool)
    requires Enabled(s, e) && t < |s.threads| && PopFits(s.threads[t], was)
    ensures PopFits(Step(s, e).threads[t], Touched(was, s, e, t))
  {
    if e.t == t && PopWins(s, e) {
      ModAddMod(s.head.tag, 1, WORD32);
      assert Step(s, e).head.tag != s.head.tag by { NextTagDiffers(s.head.tag); }
    }
  }

  lemma NextTagDiffers(tag: nat)
    ensures (tag + 1) % WORD32 != tag
  {
    if tag + 1 < WORD32 { ModSmall(tag + 1, WORD32); }
  }

  /** In every run, prompt or not: a pop returns None if and only if it left the list as it
      found it, and an index if and only if it changed it. */
  lemma {:induction false} NoneIffUntouched(s: State, es: seq<Event>, t: nat, was: bool)
    requires Valid(s, es) && t < |s.threads| && PopFits(s.threads[t], was)
    ensures PopFits(Run(s, es).threads[t], TouchedIn(was, s, es, t))
    decreases |es|
  {
    hide PopFits;
    hide Touched;
    if es != [] {
      StepFits(s, es[0], t, was);
      NoneIffUntouched(Step(s, es[0]), es[1..], t, Touched(was, s, es[0], t));
    }
  }

  // ----- who holds what -----

  /** The indices that callers hold, from what they see alone: an index comes in when a pop
      returns it and goes out when a push of it begins. */
  function InUse(out: set<nat>, s: State, e: Event): set<nat>
    requires Enabled(s, e)
  {
    var pc := Step(s, e).threads[e.t];
    if e.BeginPush? then out - {e.i}
    else if e.Advance? && pc.PopDone? && pc.result.Some? then out + {pc.result.value}
    else out
  }

  function AllInUse(out: set<nat>, s: State, es: seq<Event>): set<nat>
    requires Valid(s, es)
    decreases |es|
  {
    if es == [] then out else AllInUse(InUse(out, s, es[0]), Step(s, es[0]), es[1..])
  }

  lemma StepInUse(s: State, e: Event)
    requires Enabled(s, e)
    ensures Step(s, e).held == InUse(s.held, s, e)
  {
  }

  /** What the model calls held is what the callers hold. */
  lemma {:induction false} HeldIsInUse(s: State, es: seq<Event>)
    requires Valid(s, es)
    ensures Run(s, es).held == AllInUse(s.held, s, es)
    decreases |es|
  {
    if es != [] {
      StepInUse(s, es[0]);
      HeldIsInUse(Step(s, es[0]), es[1..]);
    }
  }

  /** From either constructor, in every prompt run: an index is on the list, in the hands of a
      caller whose pop returned it (or who created the empty stack) and who has not begun to push
      it back, or being pushed back; exactly one of these, and no index of the pool is lost. */
  lemma NothingLeaks(n: nat, threads: nat, linked: bool, es: seq<Event>, i: nat)
    requires linked ==> 0 < n
    requires var s := if linked then Linked(n, threads) else Empty(n, threads); Valid(s, es) && AllPrompt(s, es)
    ensures var s := if linked then Linked(n, threads) else Empty(n, threads);
            var f, out := Run(s, es), AllInUse(s.held, s, es);
            && (i < Size(n) <==> i in f.free || i in out || i in f.pusher)
            && !(i in f.free && i in out) && !(i in f.free && i in f.pusher) && !(i in out && i in f.pusher)
            && (i in f.pusher ==> f.pusher[i] < threads && Pushes(f.threads[f.pusher[i]]))
  {
    var s := if linked then Linked(n, threads) else Empty(n, threads);
    if linked { LinkedInv(n, threads); } else { EmptyInv(n, threads); }
    RunKeepsInv(s, Size(n), es);
    HeldIsInUse(s, es);
  }
}
