/** Waits nested in the poll of another wait: the store that begins the inner wait's poll erases
    a wake meant for the outer one, and the fiber is then parked for good. */
module LifecycleNesting {
  import opened Limits
  import opened Arith
  import opened Mesh
  import opened FiberStatus
  import opened Lifecycle
  import opened LifecycleOwner
  import opened LifecycleTheorems
  import opened LifecycleScenes

  // ----- only a wake moves a parked fiber -----

  lemma RunnerLeavesParked(s: State, e: Event, i: nat)
    requires Owned(s) && RunnerEnabled(s, e) && i < |s.fibers| && IsParked(s, i)
    ensures StepRunner(s, e).fibers[i] == s.fibers[i]
  {
    hide PushLocal;
    hide ActOn;
    NotInHand(s, i);
    hide Places;
    if e.Dispatch? {
      TakeLocalTasks(s.mesh, e.w);
    } else {
      assert WorkerHas(s.workers[e.w], i) == 0;
    }
    hide Tasks;
    hide SetLocal;
  }

  lemma AgentLeavesParked(s: State, e: Event, i: nat)
    requires Owned(s) && AgentEnabled(s, e) && i < |s.fibers| && IsParked(s, i) && !(e.Wake? && e.f == i)
    ensures StepAgent(s, e).fibers[i] == s.fibers[i]
  {
    if AgentMove(e) {
      AgentMoveCarries(s, e, i);
      hide StepAgent;
    } else {
      NotInHand(s, i);
      hide Owned;
      hide Tasks;
      if e.Publish? { assert AgentHas(s.agents[e.a], i) == 0; }
    }
  }

  lemma StepLeavesParked(s: State, e: Event, i: nat)
    requires Owned(s) && Enabled(s, e) && i < |s.fibers| && IsParked(s, i) && !(e.Wake? && e.f == i)
    ensures Step(s, e).fibers[i] == s.fibers[i]
  {
    hide Owned;
    hide StepAgent;
    hide StepRunner;
    if AgentEnabled(s, e) {
      AgentLeavesParked(s, e, i);
    } else if MoverEnabled(s, e) {
      MoverCarries(s, e, i);
      hide StepMover;
    } else {
      RunnerLeavesParked(s, e, i);
    }
  }

  /** A parked fiber stays as it is in every run that does not wake it. */
  lemma {:induction false} ParkedUntilWoken(s: State, es: seq<Event>, i: nat)
    requires Owned(s) && Valid(s, es) && i < |s.fibers| && IsParked(s, i) && NoWakeOf(es, i)
    ensures Execute(s, es).fibers[i] == s.fibers[i]
    decreases |es|
  {
    if es != [] {
      StepLeavesParked(s, es[0], i);
      StepKeepsOwned(s, es[0]);
      hide Owned;
      hide Step;
      ParkedUntilWoken(Step(s, es[0]), es[1..], i);
    }
  }

  // ----- the run that loses a wake -----

  /** A wake lands while the fiber is running. */
  lemma WakePut(s: State, j: nat, f: Fiber, p: nat, core: nat)
    requires Shape(s) && j < |s.fibers| && p < |s.workers| && |s.agents| > 0 && s.agents[0] == Rest
    requires f.st == Running && core in f.issued
    ensures var t := Put(s, j, f, p, Run(j));
            && Enabled(t, Wake(0, j, core)) && AdmissibleStep(t, Wake(0, j, core))
            && Step(t, Wake(0, j, core)) == Put(s, j, Woken(f, s.mesh.Workers(), core), p, Run(j))
  {
    var t := Put(s, j, f, p, Run(j));
    var g := Woken(f, s.mesh.Workers(), core);
    assert t.fibers[j := g] == s.fibers[j := g];
  }

  const NO_WAKE := Wait(false, false, false)
  const LOST_WAKE := Wait(true, true, true)

  /** The outer wait polls and a wake lands. */
  lemma OuterActs(f: Fiber, n: nat, core: nat) returns (f1: Fiber, f2: Fiber)
    requires 0 < n && f.phase == Polling && f.st == Running && f.waits == []
    ensures ActOn(f, Begin) == (f1, false) && f1.phase == AtLoad
    ensures ActOn(f1, Load) == (f2, false) && f2.st == Running && f2.issued == f.issued
    ensures Woken(f2, n, core) == f.(st := Notified, waits := [Wait(true, false, false)])
  {
    var ws := [NO_WAKE];
    assert Opened([]) == ws && Polled(ws) == ws;
    f1 := f.(phase := AtLoad, waits := ws);
    f2 := f.(waits := ws);
    assert AllWoken(ws) == [Wait(true, false, false)];
  }

  /** A wait nested in that poll begins, stores Running and returns. */
  lemma InnerActs(f: Fiber) returns (f1: Fiber, f2: Fiber)
    requires f.phase == Polling && f.waits == [Wait(true, false, false)]
    ensures ActOn(f, Begin) == (f1, false) && f1.phase == AtLoad
    ensures ActOn(f1, Store) == (f2, false) && f2.phase == Polling && f2.waits != []
    ensures ActOn(f2, Return) == (f.(st := Running, waits := [LOST_WAKE]), false)
  {
    f1 := f.(phase := AtLoad, waits := [Wait(true, false, true), NO_WAKE]);
    f2 := f.(st := Running, waits := [LOST_WAKE, NO_WAKE]);
    assert Opened(f.waits) == f1.waits;
    assert AllErased(f1.waits) == f2.waits && Polled(f2.waits) == f2.waits;
    assert f2.waits[..1] == [LOST_WAKE];
  }

  /** Both, one step after the other: the outer poll goes on with its wake erased. */
  lemma NestedErases(s: State, j: nat, f: Fiber, p: nat, core: nat) returns (es: seq<Event>)
    requires Shape(s) && j < |s.fibers| && p < |s.workers| && |s.agents| > 0 && s.agents[0] == Rest
    requires f.phase == Polling && f.st == Running && f.waits == [] && core in f.issued
    ensures Real(Put(s, j, f, p, Run(j)), es)
    ensures Execute(Put(s, j, f, p, Run(j)), es) == Put(s, j, f.(waits := [LOST_WAKE]), p, Run(j))
  {
    hide Step;
    hide Enabled;
    hide AdmissibleStep;
    hide Put;
    hide ActOn;
    hide Woken;
    var f1, f2 := OuterActs(f, s.mesh.Workers(), core);
    var f3 := f.(st := Notified, waits := [Wait(true, false, false)]);
    var f4, f5 := InnerActs(f3);
    ActPut(s, j, f, p, Begin);
    ActPut(s, j, f1, p, Load);
    WakePut(s, j, f2, p, core);
    ActPut(s, j, f3, p, Begin);
    ActPut(s, j, f4, p, Store);
    ActPut(s, j, f5, p, Return);
    var s0 := Put(s, j, f, p, Run(j));
    var t := s0;
    es, t := Then(s0, [], t, Act(p, Begin));
    hide Real;
    hide Execute;
    es, t := Then(s0, es, t, Act(p, Load));
    es, t := Then(s0, es, t, Wake(0, j, core));
    es, t := Then(s0, es, t, Act(p, Begin));
    es, t := Then(s0, es, t, Act(p, Store));
    es, t := Then(s0, es, t, Act(p, Return));
  }

  /** A wake can be lost: an admissible run from the initial state that parks the fiber with the
      wake outstanding, although no push has failed.  Unless a further wake comes, the fiber is
      parked for good. */
  lemma NestedWaitLosesWake(n: nat, pool: nat, agents: nat) returns (es: seq<Event>)
    requires 0 < n && 0 < agents && 0 < pool
    ensures Real(Fresh0(n, pool, agents), es)
    ensures var s := Execute(Fresh0(n, pool, agents), es);
            var f := s.fibers[0];
            && f.st == Yielded && f.waits == [LOST_WAKE] && !s.rejected
            && (forall more :: Valid(s, more) && NoWakeOf(more, 0) ==> Execute(s, more).fibers[0] == f)
  {
    var s := Fresh0(n, pool, agents);
    assert 0 in s.free by { assert Upto(pool)[0] == 0; }
    var a := HostStarts(s, 0, 0);
    var u := s.(free := s.free - {0});
    var f := Entered(Born(s.fibers[0], true, 0), 0);
    var b := NestedErases(u, 0, f, 0, 0);
    var c := Suspend(u, 0, f.(waits := [LOST_WAKE]), 0);
    assert Started(s, 0, 0) == Put(u, 0, f, 0, Run(0));
    RunAppend(Put(u, 0, f, 0, Run(0)), b, c);
    RunAppend(s, a, b + c);
    es := a + (b + c);
    var t := Execute(s, es);
    FreshOwned(n, pool, agents);
    RunKeepsOwned(s, es);
    forall more | Valid(t, more) && NoWakeOf(more, 0) ensures Execute(t, more).fibers[0] == t.fibers[0] {
      ParkedUntilWoken(t, more, 0);
    }
  }
}
