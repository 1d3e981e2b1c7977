/** The wait loop itself: at the top of the loop the state word is made Running, so that while
    the fiber polls the word says Notified exactly if something has happened since; and a loop
    whose poll is pending parks the fiber. */
module LifecycleLoop {
  import opened Mesh
  import opened FiberStatus
  import opened Lifecycle
  import opened LifecycleOwner
  import opened LifecycleWake
  import opened LifecycleTheorems
  import opened LifecycleScenes

  // ----- one fiber through one step -----

  function FiberAfter(s: State, e: Event, i: nat): Fiber
    requires Enabled(s, e) && i < |s.fibers|
  {
    var f := s.fibers[i];
    match e
    case Publish(a, pin, home) => if s.agents[a].i == i then Born(f, pin, home) else f
    case Wake(_, g, core) => if g == i then Woken(f, s.mesh.Workers(), core) else f
    case Dispatch(w) => if s.mesh.locals[w][0] == i then Entered(f, w) else f
    case Act(w, act) => if s.workers[w].i == i then ActOn(f, act).0 else f
    case Look(w) => if s.workers[w].i == i && f.st != Suspending then Judged(f) else f
    case TryPark(w) =>
      if s.workers[w].i != i then f else if f.st == Suspending then f.(st := Yielded) else Judged(f)
    case Reset(w) => if s.workers[w].i == i then f.(st := Initial, phase := Vacant) else f
    case _ => f
  }

  lemma AgentFiber(s: State, e: Event, i: nat)
    requires Shape(s) && AgentEnabled(s, e) && i < |s.fibers|
    ensures StepAgent(s, e).fibers[i] == FiberAfter(s, e, i)
  {
    hide Tasks;
    hide DoEnqueue;
    hide DoHop;
    if AgentMove(e) {
      AgentMoveCarries(s, e, i);
      hide StepAgent;
    }
  }

  lemma RunnerFiber(s: State, e: Event, i: nat)
    requires Shape(s) && RunnerEnabled(s, e) && i < |s.fibers|
    ensures StepRunner(s, e).fibers[i] == FiberAfter(s, e, i)
  {
    hide PushLocal;
    hide SetLocal;
    hide ActOn;
    hide Judged;
    hide Entered;
  }

  lemma StepFiber(s: State, e: Event, i: nat)
    requires Enabled(s, e) && i < |s.fibers|
    ensures Step(s, e).fibers[i] == FiberAfter(s, e, i)
  {
    hide StepAgent;
    hide StepRunner;
    if AgentEnabled(s, e) {
      AgentFiber(s, e, i);
    } else if MoverEnabled(s, e) {
      MoverCarries(s, e, i);
      hide StepMover;
    } else {
      RunnerFiber(s, e, i);
    }
  }

  // ----- what the state word says -----

  /** The fiber's code begins a poll at the top of a wait loop. */
  predicate PassesTop(s: State, e: Event, i: nat)
    requires Enabled(s, e) && i < |s.fibers|
  {
    && e.Act? && (e.act == Load || e.act == Store) && s.workers[e.w].i == i
    && Step(s, e).fibers[i].phase == Polling
  }

  /** Whether a wake has landed on fiber `i`, or the fiber has yielded, since its code was last at
      the top of a wait loop, or since it was spawned. */
  function Rang(was: bool, s: State, e: Event, i: nat): bool
    requires Enabled(s, e) && i < |s.fibers|
  {
    if (e.Wake? && e.f == i) || (e.Act? && e.act == Yield && s.workers[e.w].i == i) then true
    else if PassesTop(s, e, i) || (e.Publish? && s.agents[e.a].i == i) then false
    else was
  }

  /** The same over a run. */
  function RangIn(was: bool, s: State, es: seq<Event>, i: nat): bool
    requires Valid(s, es) && i < |s.fibers|
    decreases |es|
  {
    if es == [] then was
    else assert SameSize(s, Step(s, es[0])); RangIn(Rang(was, s, es[0], i), Step(s, es[0]), es[1..], i)
  }

  predicate SaysSo(f: Fiber, rang: bool) {
    f.phase in {Fresh, AtLoad, AtStore, Polling, AtCas, AtSwitch} ==> (f.st == Notified <==> rang)
  }

  lemma ActSaysSo(s: State, f: Fiber, act: FiberAct, rang: bool)
    requires RunningOk(f) && CanAct(s, f, act) && SaysSo(f, rang)
    ensures var g := ActOn(f, act).0;
            SaysSo(g, act == Yield || (!((act == Load || act == Store) && g.phase == Polling) && rang))
  {
  }

  lemma StepSaysSo(s: State, e: Event, i: nat, rang: bool)
    requires WakeInv(s) && Enabled(s, e) && i < |s.fibers| && SaysSo(s.fibers[i], rang)
    ensures SaysSo(Step(s, e).fibers[i], Rang(rang, s, e, i))
  {
    StepFiber(s, e, i);
    hide Step;
    hide ActOn;
    hide RunningOk;
    hide WaitsOk;
    hide Owned;
    if e.Act? && s.workers[e.w].i == i {
      RunnerFits(s, e.w, i);
      ActSaysSo(s, s.fibers[i], e.act, rang);
    }
  }

  lemma {:induction false} RunSaysSo(s: State, es: seq<Event>, i: nat, rang: bool)
    requires WakeInv(s) && Valid(s, es) && i < |s.fibers| && SaysSo(s.fibers[i], rang)
    ensures SaysSo(Execute(s, es).fibers[i], RangIn(rang, s, es, i))
    decreases |es|
  {
    hide WakeInv;
    hide SaysSo;
    hide Rang;
    if es != [] {
      StepKeepsWakeInv(s, es[0]);
      StepSaysSo(s, es[0], i, rang);
      hide Step;
      RunSaysSo(Step(s, es[0]), es[1..], i, Rang(rang, s, es[0], i));
    }
  }

  /** In every run: while a fiber polls, and when it tries to suspend, its state word is Notified
      if and only if a wake has landed, or the fiber has yielded, since the top of its loop; and
      otherwise it is Running. */
  lemma NotifiedIffRang(n: nat, pool: nat, agents: nat, es: seq<Event>, i: nat, w: nat)
    requires 0 < n && i < pool && w < n && Valid(Fresh0(n, pool, agents), es)
    ensures var s := Execute(Fresh0(n, pool, agents), es);
            var f := s.fibers[i];
            s.workers[w] == Run(i) && (f.phase == Polling || f.phase == AtCas) ==>
              f.st == if RangIn(false, Fresh0(n, pool, agents), es, i) then Notified else Running
  {
    var s0 := Fresh0(n, pool, agents);
    var s := Execute(s0, es);
    FreshFits(n, pool, agents);
    RunSaysSo(s0, es, i, false);
    RunKeepsWakeInv(s0, es);
    hide WaitsOk;
    if s.workers[w] == Run(i) { RunnerFits(s, w, i); }
  }

  // ----- a pending loop parks -----

  /** Every event is a step of worker `w` with the fiber in its hands. */
  predicate OwnSteps(es: seq<Event>, w: nat) {
    forall k :: 0 <= k < |es| ==> es[k] == Look(w) || es[k] == TryPark(w) || (es[k].Act? && es[k].w == w)
  }

  lemma LoadThenStore(f: Fiber)
    requires f.phase == AtLoad && f.waits != []
    ensures var g := ActOn(f, Store).0;
            ActOn(f, Store) == (g, false) && g.phase == Polling && g.st == Running && g.waits != []
    ensures var g := ActOn(f, Load).0;
            && ActOn(f, Load) == (g, false) && g.waits != []
            && (f.st == Running ==> g.phase == Polling && g.st == Running)
            && (f.st != Running ==> g.phase == AtStore)
    ensures var g := f.(phase := AtStore);
            var h := ActOn(g, Store).0;
            ActOn(g, Store) == (h, false) && h.phase == Polling && h.st == Running && h.waits != []
    ensures f.st != Running ==> ActOn(f, Load).0 == f.(phase := AtStore)
  {
  }

  /** From the top of the loop, whatever the state word, the fiber's own steps begin a poll with
      the word Running. */
  lemma TopMakesRunning(s: State, j: nat, f: Fiber, p: nat, swap: bool) returns (es: seq<Event>, g: Fiber)
    requires Shape(s) && j < |s.fibers| && p < |s.workers|
    requires f.phase == AtLoad && f.waits != []
    ensures Real(Put(s, j, f, p, Run(j)), es)
    ensures forall k :: 0 <= k < |es| ==> es[k] == Act(p, Load) || es[k] == Act(p, Store)
    ensures Execute(Put(s, j, f, p, Run(j)), es) == Put(s, j, g, p, Run(j))
    ensures g.phase == Polling && g.st == Running && g.waits != []
  {
    hide Step;
    hide Enabled;
    hide AdmissibleStep;
    hide Put;
    LoadThenStore(f);
    hide ActOn;
    var s0 := Put(s, j, f, p, Run(j));
    var t;
    var first := if swap then Store else Load;
    ActPut(s, j, f, p, first);
    g := ActOn(f, first).0;
    es, t := Then(s0, [], s0, Act(p, first));
    if !swap && f.st != Running {
      ActPut(s, j, g, p, Store);
      hide Real;
      hide Execute;
      g := ActOn(g, Store).0;
      es, t := Then(s0, es, t, Act(p, Store));
    }
  }

  /** A fiber that runs at the top of its loop -- resumed after a wake, or entering the wait --
      and finds its poll pending is parked by its own steps and its dispatcher's, if no wake
      lands meanwhile; by the load and store of a future's wait and by the swap of
      `dtact_await`. */
  lemma PendingLoopParks(s: State, w: nat, i: nat, swap: bool) returns (es: seq<Event>)
    requires WakeInv(s) && w < |s.workers| && s.workers[w] == Run(i) && i < |s.fibers| && s.fibers[i].phase == AtLoad
    ensures Real(s, es) && OwnSteps(es, w)
    ensures var t := Execute(s, es); t.fibers[i].st == Yielded && t.workers[w] == Idle
  {
    RunnerFits(s, w, i);
    assert Shape(s);
    hide WakeInv;
    PutSelf(s, i, w);
    var f := s.fibers[i];
    var g;
    es, g := TopMakesRunning(s, i, f, w, swap);
    var more := Suspend(s, i, g, w);
    RunAppend(s, es, more);
    es := es + more;
  }

  /** A fiber whose poll was pending and on which a wake has landed does not leave its worker: its
      exchange fails, and its own steps begin another poll with the word Running. */
  lemma WokenLoopPollsAgain(s: State, w: nat, i: nat, swap: bool) returns (es: seq<Event>)
    requires WakeInv(s) && w < |s.workers| && s.workers[w] == Run(i) && i < |s.fibers|
    requires s.fibers[i].phase == AtCas && s.fibers[i].st == Notified
    ensures Real(s, es) && forall k :: 0 <= k < |es| ==> es[k].Act? && es[k].w == w && es[k].act != Switch
    ensures var t := Execute(s, es);
            && t.workers == s.workers && t.mesh == s.mesh
            && i < |t.fibers| && t.fibers[i].phase == Polling && t.fibers[i].st == Running
  {
    RunnerFits(s, w, i);
    assert Shape(s);
    hide WakeInv;
    PutSelf(s, i, w);
    var f := s.fibers[i];
    var g := f.(phase := AtLoad);
    ActPut(s, i, f, w, Cas);
    var go := [Act(w, Cas)];
    PrependReal(s, Act(w, Cas), []);
    assert [Act(w, Cas)] + [] == go;
    var more, h := TopMakesRunning(s, i, g, w, swap);
    hide Step;
    RunAppend(s, go, more);
    es := go + more;
  }
}
