/** The warehouse's backlog counter: a 32-bit word that producers increment after
    publishing and consumers decrement after releasing, so that it lags the ring. */
module MpmcBacklog {
  import opened Arith
  import opened Wrappers
  import opened MpmcRing
  import opened MpmcSafety
  import opened MpmcTheorems
  import opened Limits

  /** What a thread still owes the counter, with the sign that corrects it. */
  function Debt<T>(pc: Pc<T>): int {
    if pc.PushWrite? || pc.PushPublish? || pc.PushCount? then -1
    else if pc.PopRead? || pc.PopRelease? || pc.PopCount? then 1
    else 0
  }

  function Debts<T>(ts: seq<Pc<T>>): int {
    if ts == [] then 0 else Debt(ts[0]) + Debts(ts[1..])
  }

  ghost predicate BacklogInv<T>(s: State<T>) {
    s.counting && s.backlog == (s.enq - s.deq + Debts(s.threads)) % WORD32
  }

  lemma {:induction false} DebtsUpdate<T>(ts: seq<Pc<T>>, t: nat, pc: Pc<T>)
    requires t < |ts|
    ensures Debts(ts[t := pc]) == Debts(ts) - Debt(ts[t]) + Debt(pc)
  {
    if t == 0 {
      assert ts[t := pc][1..] == ts[1..];
    } else {
      assert ts[t := pc][1..] == ts[1..][t - 1 := pc];
      DebtsUpdate(ts[1..], t - 1, pc);
    }
  }

  lemma {:induction false} NoDebts<T>(ts: seq<Pc<T>>)
    requires forall t :: 0 <= t < |ts| ==> Debt(ts[t]) == 0
    ensures Debts(ts) == 0
  {
    if ts != [] { NoDebts(ts[1..]); }
  }

  lemma FreshBacklog<T>(cap: nat, n: nat)
    ensures BacklogInv(Fresh<T>(cap, true, n))
  {
    NoDebts(Fresh<T>(cap, true, n).threads);
  }

  lemma PushStepBacklog<T>(s: State<T>, t: nat, spurious: bool, reload: bool)
    requires BacklogInv(s) && Shape(s) && t < |s.threads| && Pushing(s.threads[t])
    ensures BacklogInv(StepPush(s, t, spurious, reload))
  {
    hide Debts;
    var s' := StepPush(s, t, spurious, reload);
    DebtsUpdate(s.threads, t, s'.threads[t]);
    if s.threads[t].PushCount? {
      ModAddMod(s.enq - s.deq + Debts(s.threads), 1, WORD32);
    }
  }

  lemma PopStepBacklog<T>(s: State<T>, t: nat, spurious: bool, reload: bool)
    requires BacklogInv(s) && Shape(s) && t < |s.threads| && !Pushing(s.threads[t])
    ensures BacklogInv(StepPop(s, t, spurious, reload))
  {
    hide Debts;
    var s' := StepPop(s, t, spurious, reload);
    DebtsUpdate(s.threads, t, s'.threads[t]);
    if s.threads[t].PopCount? {
      ModAddMod(s.enq - s.deq + Debts(s.threads), -1, WORD32);
    }
  }

  lemma StepKeepsBacklog<T>(s: State<T>, e: Event<T>)
    requires BacklogInv(s) && Enabled(s, e)
    ensures BacklogInv(Step(s, e))
  {
    match e
    case Advance(t, spurious, reload) =>
      if Pushing(s.threads[t]) {
        PushStepBacklog(s, t, spurious, reload);
      } else {
        PopStepBacklog(s, t, spurious, reload);
      }
    case _ => DebtsUpdate(s.threads, e.t, Step(s, e).threads[e.t]);
  }

  /** In every run of the warehouse the counter equals `tail - head`, corrected by the calls
      that have moved a counter of the ring and not yet reported it, modulo 2^32. */
  lemma {:induction false} BacklogAccounts<T>(s: State<T>, es: seq<Event<T>>)
    requires BacklogInv(s) && Valid(s, es)
    ensures BacklogInv(Run(s, es))
    decreases |es|
  {
    if es != [] {
      StepKeepsBacklog(s, es[0]);
      BacklogAccounts(Step(s, es[0]), es[1..]);
    }
  }

  ghost predicate Quiescent<T>(s: State<T>) {
    forall t :: 0 <= t < |s.threads| ==> Resting(s.threads[t])
  }

  /** With no call in flight the counter is exact, so `is_busy` tells the truth. */
  lemma QuiescentBacklogExact<T>(n: nat, es: seq<Event<T>>)
    requires Valid(Fresh<T>(WAREHOUSE_CAPACITY, true, n), es)
    requires Quiescent(Run(Fresh<T>(WAREHOUSE_CAPACITY, true, n), es))
    ensures var s := Run(Fresh<T>(WAREHOUSE_CAPACITY, true, n), es);
            && s.backlog == s.enq - s.deq
            && (s.backlog != 0 <==> s.deq < s.enq && AtStage(s, s.deq, Published))
  {
    var s0 := Fresh<T>(WAREHOUSE_CAPACITY, true, n);
    var s := Run(s0, es);
    FreshBacklog<T>(WAREHOUSE_CAPACITY, n);
    BacklogAccounts(s0, es);
    forall t | 0 <= t < |s.threads| ensures Debt(s.threads[t]) == 0 { assert Resting(s.threads[t]); }
    NoDebts(s.threads);
    FreshInv<T>(WAREHOUSE_CAPACITY, true, n);
    RunKeepsInv(s0, es);
    QueueBounded(s);
    if s.deq < s.enq { assert TicketOk(s, s.deq); }
    ModSmall(s.enq - s.deq, WORD32);
  }

  /** In flight it can be off by as much as a wrap: a pop that reports before its push does
      leaves 2^32 - 1 behind, although the ring is empty. */
  lemma BacklogCanUnderflow(cap: nat, x: int) returns (es: seq<Event<int>>)
    requires 2 <= cap
    ensures Valid(Fresh<int>(cap, true, 2), es)
    ensures var s := Run(Fresh<int>(cap, true, 2), es); s.backlog == WORD32 - 1 && s.enq == s.deq
  {
    var s := Fresh<int>(cap, true, 2);
    ModSmall(0, cap);
    var go := Advance(0, false, false);
    var claim := SoloClaim(s, 0, x);
    var s1 := Run(s, claim);
    var s2 := Step(s1, go);
    var s3 := Step(s2, go);
    assert s3.cells[0] == Cell(1, Some(x)) && s3.threads[1].Idle?;
    var pop := SoloPop(s3, 1);
    var publish := Prepend(s2, go, pop);
    publish := Prepend(s1, go, publish);
    RunAppend(s, claim, publish);
    es := claim + publish;
  }

  lemma SoloTake<T>(s: State<T>, t: nat) returns (es: seq<Event<T>>)
    requires Shape(s) && t < |s.threads| && s.threads[t].Idle? && s.cells[s.deq % s.cap].seqno == s.deq + 1
    ensures Valid(s, es)
    ensures var f := Run(s, es);
            && f.threads[t] == PopRead(Plain, s.deq) && f.deq == s.deq + 1 && f.enq == s.enq
            && f.backlog == s.backlog && f.counting == s.counting
  {
    var go := Advance(t, false, false);
    var s1 := Step(s, BeginPop(t));
    var s2 := Step(s1, go);
    var s3 := Step(s2, go);
    es := [];
    es := Prepend(s3, go, es);
    es := Prepend(s2, go, es);
    es := Prepend(s1, go, es);
    es := Prepend(s, BeginPop(t), es);
  }

  lemma SoloRelease<T>(s: State<T>, t: nat) returns (es: seq<Event<T>>)
    requires Shape(s) && s.counting && t < |s.threads| && s.threads[t].PopRead?
    ensures Valid(s, es)
    ensures var f := Run(s, es); f.deq == s.deq && f.enq == s.enq && f.backlog == (s.backlog - 1) % WORD32
  {
    var go := Advance(t, false, false);
    var s1 := Step(s, go);
    assert s1.threads[t].PopRelease? && s1.counting;
    var s2 := Step(s1, go);
    assert s2.threads[t].PopCount?;
    var s3 := Step(s2, go);
    assert s3.deq == s.deq && s3.enq == s.enq && s3.backlog == (s.backlog - 1) % WORD32;
    es := [];
    assert Run(s3, es) == s3;
    es := Prepend(s2, go, es);
    es := Prepend(s1, go, es);
    es := Prepend(s, go, es);
  }

  lemma SoloPop<T>(s: State<T>, t: nat) returns (es: seq<Event<T>>)
    requires Shape(s) && s.counting && t < |s.threads| && s.threads[t].Idle?
    requires s.cells[s.deq % s.cap].seqno == s.deq + 1
    ensures Valid(s, es)
    ensures var f := Run(s, es); f.deq == s.deq + 1 && f.enq == s.enq && f.backlog == (s.backlog - 1) % WORD32
  {
    var take := SoloTake(s, t);
    var rest := SoloRelease(Run(s, take), t);
    RunAppend(s, take, rest);
    es := take + rest;
  }
}
