/** What the state word of a fiber can be in each place, in every run: no wake is lost, the
    dispatcher never meets a state it does not handle, and only a finished fiber is freed. */
module LifecycleWake {
  import opened Mesh
  import opened FiberStatus
  import opened Lifecycle
  import opened LifecycleOwner

  /** The fiber has ended: its state is Finished, unless a wake or a yield has since
      overwritten it. */
  predicate EndedOk(f: Fiber) { f.st == Finished || (f.late && f.st == Notified) }

  predicate RunningOk(f: Fiber) {
    match f.phase
    case Polling => f.st == Running || f.st == Notified
    case AtLoad => f.st == Running || f.st == Notified
    case AtCas => f.st == Running || f.st == Notified
    case AtStore => f.st == Notified
    case AtSwitch => f.st == Suspending || f.st == Notified
    case Ending => EndedOk(f)
    case Resumed => f.late
    case _ => false
  }

  /** Switched out, before the dispatcher has decided. */
  predicate SwitchedOk(f: Fiber) {
    match f.phase
    case AtLoad => f.st == Suspending || f.st == Notified
    case Polling => f.st == Notified
    case Ending => f.late && f.st == Notified
    case Over => EndedOk(f)
    case _ => false
  }

  /** In a queue, or on its way into one. */
  predicate QueuedOk(f: Fiber) {
    match f.phase
    case Fresh => f.st == Running || f.st == Notified
    case AtLoad => f.st == Notified
    case Polling => f.st == Notified
    case Ending => f.late && f.st == Notified
    case Over => f.late && f.st == Notified
    case _ => false
  }

  predicate WorkerOk(pc: WorkerPc, f: Fiber) {
    match pc
    case Idle => true
    case Run(_) => RunningOk(f)
    case Back(_) => SwitchedOk(f)
    case ParkCas(_) => SwitchedOk(f) && f.phase == AtLoad
    case Settling(_, seen) => (seen == Finished && f.phase == Over) || (seen == Notified && QueuedOk(f))
    case Resetting(_) => f.phase == Over
    case Freeing(_) => f.phase == Vacant
    case _ => QueuedOk(f)
  }

  predicate AgentOk(pc: AgentPc, f: Fiber) {
    match pc
    case Rest => true
    case Spawning(_) => f.phase == Vacant
    case _ => QueuedOk(f)
  }

  /** The flags of the open waits: a wake can be gone from the state word only because a nested
      wait erased it, and only the innermost wait can be without a nested one. */
  predicate WaitsOk(f: Fiber) {
    && (forall k :: 0 <= k < |f.waits| && f.waits[k].erased ==> f.waits[k].woken && f.waits[k].nested)
    && (forall k :: 0 <= k < |f.waits| - 1 ==> f.waits[k].nested)
    && (f.st in {Running, Suspending, Yielded} ==>
          forall k :: 0 <= k < |f.waits| && f.waits[k].woken ==> f.waits[k].erased)
    && (f.phase in {AtLoad, AtStore, AtCas, AtSwitch} ==> f.waits != [])
  }

  /** The value of the fiber fits the place its index is in. */
  predicate Fits(s: State, i: nat)
    requires i < |s.fibers|
  {
    var f := s.fibers[i];
    && (Tasks(s.mesh)[i] > 0 ==> QueuedOk(f))
    && (forall w :: 0 <= w < |s.workers| && WorkerHas(s.workers[w], i) > 0 ==> WorkerOk(s.workers[w], f))
    && (forall a :: 0 <= a < |s.agents| && AgentHas(s.agents[a], i) > 0 ==> AgentOk(s.agents[a], f))
    && (i in s.free ==> f.phase == Vacant)
    && (f.st == Yielded ==> f.phase == AtLoad)
    && WaitsOk(f)
  }

  ghost predicate WakeInv(s: State) {
    && Owned(s)
    && (forall i :: 0 <= i < |s.fibers| ==> Fits(s, i))
    && (s.dropped != {} ==> s.rejected)
  }

  lemma FreshFits(n: nat, pool: nat, agents: nat)
    requires 0 < n
    ensures WakeInv(Fresh0(n, pool, agents))
  {
    FreshOwned(n, pool, agents);
    EmptyMeshHasNoTasks(n);
  }

  // ----- wakes -----

  /** Every condition on a fiber that is not parked survives a wake; a parked one becomes
      ready to be queued. */
  lemma WakeIsSafe(f: Fiber, n: nat, core: nat, pc: WorkerPc, ac: AgentPc)
    requires 0 < n
    ensures QueuedOk(f) ==> QueuedOk(Woken(f, n, core))
    ensures WorkerOk(pc, f) ==> WorkerOk(pc, Woken(f, n, core))
    ensures AgentOk(ac, f) ==> AgentOk(ac, Woken(f, n, core))
    ensures WaitsOk(f) ==> WaitsOk(Woken(f, n, core))
  {
  }

  lemma WakeFits(s: State, a: nat, f: nat, core: nat, i: nat)
    requires WakeInv(s) && AgentEnabled(s, Wake(a, f, core)) && i < |s.fibers|
    ensures Fits(DoWake(s, a, f, core), i)
  {
    hide Tasks;
    assert Shape(s);
    hide Owned;
    hide WorkerOk;
    hide QueuedOk;
    hide WaitsOk;
    var n := s.mesh.Workers();
    var s' := DoWake(s, a, f, core);
    assert Fits(s, i);
    if i == f {
      var g := s.fibers[f];
      var g' := Woken(g, n, core);
      assert s'.fibers[f] == g';
      WakeIsSafe(g, n, core, Idle, Rest);
      forall w | 0 <= w < |s'.workers| && WorkerHas(s'.workers[w], i) > 0 ensures WorkerOk(s'.workers[w], g') {
        WakeIsSafe(g, n, core, s.workers[w], Rest);
      }
      forall b | 0 <= b < |s'.agents| && AgentHas(s'.agents[b], i) > 0 ensures AgentOk(s'.agents[b], g') {
        if b == a {
          ParkedReady(g, n, core);
        } else {
          WakeIsSafe(g, n, core, Idle, s.agents[b]);
        }
      }
    }
  }

  lemma ParkedReady(f: Fiber, n: nat, core: nat)
    requires 0 < n && f.st == Yielded && f.phase == AtLoad
    ensures QueuedOk(Woken(f, n, core))
  {
  }

  lemma SpawnFits(s: State, e: Event, i: nat)
    requires WakeInv(s) && AgentEnabled(s, e) && (e.Spawn? || e.Publish?) && i < |s.fibers|
    ensures Fits(StepAgent(s, e), i)
  {
    hide Tasks;
    hide Places;
    assert Fits(s, i);
    match e
    case Spawn(_, _) =>
    case Publish(a, _, _) => AgentHolds(s, a, s.agents[a].i);
  }

  // ----- carrying -----

  lemma AgentCarryFits(s: State, s': State, a: nat, i: nat)
    requires WakeInv(s) && AgentCarries(s, s', a, i) && i < |s.fibers|
    ensures Fits(s', i)
  {
    hide Tasks;
    hide Owned;
    hide QueuedOk;
    assert Fits(s, i);
  }

  lemma WorkerCarryFits(s: State, s': State, w: nat, i: nat)
    requires WakeInv(s) && WorkerCarries(s, s', w, i) && i < |s.fibers|
    ensures Fits(s', i)
  {
    hide Tasks;
    hide Owned;
    hide QueuedOk;
    assert Fits(s, i);
  }

  // ----- handling -----

  /** Acting on the fiber in hand leaves every other fiber's condition alone, and leaves `j` in
      order when its new value fits the worker's new place. */
  lemma HandleFits(s: State, s': State, w: nat, j: nat, i: nat)
    requires WakeInv(s) && Handles(s, s', w, j) && i < |s.fibers|
    requires InHand(s'.workers[w], j) ==> WorkerOk(s'.workers[w], s'.fibers[j])
    requires s'.free != s.free ==> s'.fibers[j].phase == Vacant
    requires s'.fibers[j].st == Yielded ==> s'.fibers[j].phase == AtLoad
    requires WaitsOk(s'.fibers[j])
    ensures Fits(s', i)
  {
    hide Tasks;
    hide Places;
    hide WorkerOk;
    WorkerHolds(s, w, j);
    assert Fits(s, i);
  }

  /** What a running fiber does keeps its state word in step with where it is. */
  lemma ActOk(s: State, f: Fiber, act: FiberAct)
    requires RunningOk(f) && CanAct(s, f, act)
    ensures var r := ActOn(f, act); (if r.1 then SwitchedOk(r.0) else RunningOk(r.0)) && r.0.st != Yielded
  {
  }

  /** ... and the flags of its waits in step with both: in particular a store of Running leaves
      every wake it overwrites marked as erased in the waits it was meant for. */
  lemma ActWaitsOk(s: State, f: Fiber, act: FiberAct)
    requires RunningOk(f) && WaitsOk(f) && CanAct(s, f, act)
    ensures WaitsOk(ActOn(f, act).0)
  {
  }

  lemma ActFits(s: State, w: nat, act: FiberAct, i: nat)
    requires WakeInv(s) && RunnerEnabled(s, Act(w, act)) && i < |s.fibers|
    ensures Fits(StepRunner(s, Act(w, act)), i)
  {
    hide Tasks;
    hide Places;
    hide ActOn;
    hide RunningOk;
    hide SwitchedOk;
    hide Handles;
    hide WaitsOk;
    var j := s.workers[w].i;
    WorkerHolds(s, w, j);
    assert Fits(s, j);
    ActOk(s, s.fibers[j], act);
    ActWaitsOk(s, s.fibers[j], act);
    ActHandles(s, w, act);
    HandleFits(s, StepRunner(s, Act(w, act)), w, j, i);
  }

  /** What the dispatcher does to the fiber in its hands. */
  lemma LookWaitsOk(f: Fiber)
    requires WaitsOk(f)
    ensures WaitsOk(Judged(f)) && WaitsOk(f.(st := Initial, phase := Vacant))
    ensures f.st == Suspending ==> WaitsOk(f.(st := Yielded))
  {
  }

  lemma LookFits(s: State, e: Event, i: nat)
    requires WakeInv(s) && RunnerEnabled(s, e) && (e.Look? || e.TryPark? || e.Reset? || e.Release?) && i < |s.fibers|
    ensures Fits(StepRunner(s, e), i)
  {
    hide Tasks;
    hide Places;
    hide Handles;
    hide WaitsOk;
    var j := s.workers[e.w].i;
    WorkerHolds(s, e.w, j);
    assert Fits(s, j);
    LookWaitsOk(s.fibers[j]);
    if e.Look? || e.TryPark? { LookHandles(s, e); } else { FreeingHandles(s, e); }
    HandleFits(s, StepRunner(s, e), e.w, j, i);
  }

  lemma SettleFits(s: State, w: nat, i: nat)
    requires WakeInv(s) && RunnerEnabled(s, Settle(w)) && i < |s.fibers|
    ensures Fits(StepRunner(s, Settle(w)), i)
    ensures s.workers[w].seen == Finished || s.workers[w].seen == Notified
  {
    hide Tasks;
    hide Places;
    hide Handles;
    hide WorkerCarries;
    var j := s.workers[w].i;
    WorkerHolds(s, w, j);
    assert Fits(s, j);
    SettleHandles(s, w, i);
    if Requeues(s, w) {
      WorkerCarryFits(s, DoSettle(s, w), w, i);
    } else {
      HandleFits(s, DoSettle(s, w), w, j, i);
    }
  }

  lemma DispatchFits(s: State, w: nat, i: nat)
    requires WakeInv(s) && RunnerEnabled(s, Dispatch(w)) && i < |s.fibers|
    ensures Fits(StepRunner(s, Dispatch(w)), i)
  {
    hide Tasks;
    hide Places;
    var j := s.mesh.locals[w][0];
    TakeLocalTasks(s.mesh, w);
    assert Tasks(s.mesh)[j] > 0;
    NotInHand(s, j);
    assert Fits(s, i);
  }

  lemma StepFits(s: State, e: Event, i: nat)
    requires WakeInv(s) && Enabled(s, e) && i < |s.fibers|
    ensures Fits(Step(s, e), i)
  {
    hide Fits;
    hide WakeInv;
    hide StepAgent;
    hide StepMover;
    hide StepRunner;
    if AgentEnabled(s, e) {
      AgentStepFits(s, e, i);
    } else if MoverEnabled(s, e) {
      MoverCarries(s, e, i);
      WorkerCarryFits(s, StepMover(s, e), e.w, i);
    } else {
      match e
      case Dispatch(w) => DispatchFits(s, w, i);
      case Act(w, act) => ActFits(s, w, act, i);
      case Settle(w) => SettleFits(s, w, i);
      case _ => LookFits(s, e, i);
    }
  }

  lemma AgentStepFits(s: State, e: Event, i: nat)
    requires WakeInv(s) && AgentEnabled(s, e) && i < |s.fibers|
    ensures Fits(StepAgent(s, e), i)
  {
    hide Fits;
    if AgentMove(e) {
      AgentMoveCarries(s, e, i);
      AgentCarryFits(s, StepAgent(s, e), e.a, i);
    } else if e.Wake? {
      WakeFits(s, e.a, e.f, e.core, i);
    } else {
      SpawnFits(s, e, i);
    }
  }

  lemma AgentsDropNothing(s: State, e: Event)
    requires Shape(s) && AgentEnabled(s, e)
    ensures StepAgent(s, e).dropped == s.dropped && (s.rejected ==> StepAgent(s, e).rejected)
  {
    hide Post;
    hide PushLocal;
  }

  lemma MoversDropNothing(s: State, e: Event)
    requires Shape(s) && MoverEnabled(s, e)
    ensures StepMover(s, e).dropped == s.dropped && (s.rejected ==> StepMover(s, e).rejected)
  {
    hide Post;
  }

  lemma OnlySettleDrops(s: State, e: Event)
    requires Enabled(s, e) && !e.Settle?
    ensures Step(s, e).dropped == s.dropped && (s.rejected ==> Step(s, e).rejected)
  {
    hide StepAgent;
    hide StepMover;
    if AgentEnabled(s, e) {
      AgentsDropNothing(s, e);
    } else if MoverEnabled(s, e) {
      MoversDropNothing(s, e);
    }
  }

  /** An index is dropped only by a push that failed. */
  lemma DropsAreRejections(s: State, e: Event)
    requires WakeInv(s) && Enabled(s, e)
    ensures Step(s, e).dropped != {} ==> Step(s, e).rejected
  {
    hide Tasks;
    hide Places;
    hide Fits;
    if e.Settle? {
      WorkerHolds(s, e.w, s.workers[e.w].i);
      SettleFits(s, e.w, s.workers[e.w].i);
    } else {
      OnlySettleDrops(s, e);
    }
  }

  lemma StepKeepsWakeInv(s: State, e: Event)
    requires WakeInv(s) && Enabled(s, e)
    ensures WakeInv(Step(s, e))
  {
    hide Fits;
    hide Owned;
    hide Step;
    StepKeepsOwned(s, e);
    DropsAreRejections(s, e);
    forall i | 0 <= i < |s.fibers| ensures Fits(Step(s, e), i) { StepFits(s, e, i); }
  }

  lemma {:induction false} RunKeepsWakeInv(s: State, es: seq<Event>)
    requires WakeInv(s) && Valid(s, es)
    ensures WakeInv(Execute(s, es))
    decreases |es|
  {
    hide WakeInv;
    if es != [] {
      StepKeepsWakeInv(s, es[0]);
      RunKeepsWakeInv(Step(s, es[0]), es[1..]);
    }
  }
}
