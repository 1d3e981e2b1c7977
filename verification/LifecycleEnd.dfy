/** When an ended fiber is resumed.  A wake can overwrite Finished; what decides is the value
    that the dispatcher reads after the fiber's last switch: Finished, and its context is
    freed in every continuation; Notified, and it is requeued and resumed past its end. */
module LifecycleEnd {
  import opened Mesh
  import opened FiberStatus
  import opened Lifecycle
  import opened LifecycleOwner
  import opened LifecycleWake
  import opened LifecycleTheorems

  predicate Ended(f: Fiber) { f.phase == Over || f.phase == Resumed }

  /** What a worker that holds an ended fiber has read of it. */
  predicate HasRead(pc: WorkerPc, f: Fiber) {
    match pc
    case Back(_) => !f.misread
    case Settling(_, seen) => f.misread <==> seen == Notified
    case Resetting(_) => !f.misread
    case Routing(_) => f.misread
    case Stowing(_) => f.misread
    case Parking(_) => f.misread
    case _ => true
  }

  predicate EndOk(s: State, i: nat)
    requires i < |s.fibers|
  {
    var f := s.fibers[i];
    && (f.misread ==> Ended(f) && f.late)
    && (f.phase == Resumed ==> f.misread)
    && (f.phase == Over && (Tasks(s.mesh)[i] > 0 || i in s.dropped) ==> f.misread)
    && (forall w :: 0 <= w < |s.workers| && f.phase == Over && WorkerHas(s.workers[w], i) > 0 ==>
          HasRead(s.workers[w], f))
    && (forall a :: 0 <= a < |s.agents| && f.phase == Over && AgentHas(s.agents[a], i) > 0 ==> f.misread)
  }

  ghost predicate EndInv(s: State) {
    WakeInv(s) && forall i :: 0 <= i < |s.fibers| ==> EndOk(s, i)
  }

  lemma FreshEndInv(n: nat, pool: nat, agents: nat)
    requires 0 < n
    ensures EndInv(Fresh0(n, pool, agents))
  {
    FreshFits(n, pool, agents);
  }

  // ----- every step -----

  lemma AgentCarryEnd(s: State, s': State, a: nat, i: nat)
    requires EndInv(s) && AgentCarries(s, s', a, i) && i < |s.fibers|
    ensures EndOk(s', i)
  {
    hide Tasks;
    hide WakeInv;
    hide HasRead;
    assert EndOk(s, i);
  }

  lemma WorkerCarryEnd(s: State, s': State, w: nat, i: nat)
    requires EndInv(s) && WorkerCarries(s, s', w, i) && i < |s.fibers|
    ensures EndOk(s', i)
  {
    hide Tasks;
    hide WakeInv;
    assert EndOk(s, i);
  }

  lemma HandleEnd(s: State, s': State, w: nat, j: nat, i: nat)
    requires EndInv(s) && Handles(s, s', w, j) && i < |s.fibers|
    requires var f := s'.fibers[j];
             && (f.misread ==> Ended(f) && f.late) && (f.phase == Resumed ==> f.misread)
             && (f.phase == Over && s'.dropped != s.dropped ==> f.misread)
             && (f.phase == Over ==> HasRead(s'.workers[w], f))
    ensures EndOk(s', i)
  {
    hide Tasks;
    hide Places;
    hide Fits;
    hide HasRead;
    WorkerHolds(s, w, j);
    assert EndOk(s, i);
  }

  lemma WakeEnd(s: State, a: nat, f: nat, core: nat, i: nat)
    requires EndInv(s) && AgentEnabled(s, Wake(a, f, core)) && i < |s.fibers|
    ensures EndOk(DoWake(s, a, f, core), i)
  {
    hide Tasks;
    assert Shape(s);
    hide Owned;
    hide HasRead;
    hide WaitsOk;
    assert EndOk(s, i) && Fits(s, f);
    var s' := DoWake(s, a, f, core);
    forall w | 0 <= w < |s.workers| && s'.fibers[i].phase == Over && WorkerHas(s.workers[w], i) > 0
      ensures HasRead(s.workers[w], s'.fibers[i])
    {
      ReadSurvivesWake(s.workers[w], s.fibers[i], s.mesh.Workers(), core);
    }
  }

  lemma ReadSurvivesWake(pc: WorkerPc, f: Fiber, n: nat, core: nat)
    requires 0 < n
    ensures HasRead(pc, f) <==> HasRead(pc, Woken(f, n, core))
  {
  }

  lemma SpawnEnd(s: State, e: Event, i: nat)
    requires EndInv(s) && AgentEnabled(s, e) && (e.Spawn? || e.Publish?) && i < |s.fibers|
    ensures EndOk(StepAgent(s, e), i)
  {
    hide Tasks;
    hide Places;
    hide HasRead;
    assert EndOk(s, i);
    if e.Spawn? { assert Fits(s, e.f); } else { AgentHolds(s, e.a, s.agents[e.a].i); }
  }

  lemma AgentEnd(s: State, e: Event, i: nat)
    requires EndInv(s) && AgentEnabled(s, e) && i < |s.fibers|
    ensures EndOk(StepAgent(s, e), i)
  {
    hide EndOk;
    if AgentMove(e) {
      AgentMoveCarries(s, e, i);
      AgentCarryEnd(s, StepAgent(s, e), e.a, i);
    } else if e.Wake? {
      WakeEnd(s, e.a, e.f, e.core, i);
    } else {
      SpawnEnd(s, e, i);
    }
  }

  lemma ActEnd(s: State, w: nat, act: FiberAct, i: nat)
    requires EndInv(s) && RunnerEnabled(s, Act(w, act)) && i < |s.fibers|
    ensures EndOk(StepRunner(s, Act(w, act)), i)
  {
    hide Tasks;
    hide Places;
    hide Handles;
    var j := s.workers[w].i;
    WorkerHolds(s, w, j);
    assert EndOk(s, j);
    ActHandles(s, w, act);
    HandleEnd(s, StepRunner(s, Act(w, act)), w, j, i);
  }

  lemma LookEnd(s: State, e: Event, i: nat)
    requires EndInv(s) && RunnerEnabled(s, e) && (e.Look? || e.TryPark?) && i < |s.fibers|
    ensures EndOk(StepRunner(s, e), i)
  {
    hide Tasks;
    hide Places;
    hide Handles;
    var j := s.workers[e.w].i;
    WorkerHolds(s, e.w, j);
    assert EndOk(s, j) && Fits(s, j);
    LookHandles(s, e);
    HandleEnd(s, StepRunner(s, e), e.w, j, i);
  }

  lemma FreeingEnd(s: State, e: Event, i: nat)
    requires EndInv(s) && RunnerEnabled(s, e) && (e.Reset? || e.Release?) && i < |s.fibers|
    ensures EndOk(StepRunner(s, e), i)
  {
    hide Tasks;
    hide Places;
    hide Handles;
    var j := s.workers[e.w].i;
    WorkerHolds(s, e.w, j);
    assert EndOk(s, j) && Fits(s, j);
    FreeingHandles(s, e);
    HandleEnd(s, StepRunner(s, e), e.w, j, i);
  }

  lemma SettleEnd(s: State, w: nat, i: nat)
    requires EndInv(s) && RunnerEnabled(s, Settle(w)) && i < |s.fibers|
    ensures EndOk(StepRunner(s, Settle(w)), i)
  {
    hide Tasks;
    hide Places;
    hide Handles;
    hide WorkerCarries;
    var j := s.workers[w].i;
    WorkerHolds(s, w, j);
    assert EndOk(s, j) && Fits(s, j);
    SettleHandles(s, w, i);
    if Requeues(s, w) {
      WorkerCarryEnd(s, DoSettle(s, w), w, i);
    } else {
      HandleEnd(s, DoSettle(s, w), w, j, i);
    }
  }

  lemma DispatchEnd(s: State, w: nat, i: nat)
    requires EndInv(s) && RunnerEnabled(s, Dispatch(w)) && i < |s.fibers|
    ensures EndOk(StepRunner(s, Dispatch(w)), i)
  {
    hide Tasks;
    hide Places;
    var j := s.mesh.locals[w][0];
    TakeLocalTasks(s.mesh, w);
    assert Tasks(s.mesh)[j] > 0;
    NotInHand(s, j);
    assert EndOk(s, i) && Fits(s, j);
  }

  lemma StepEnd(s: State, e: Event, i: nat)
    requires EndInv(s) && Enabled(s, e) && i < |s.fibers|
    ensures EndOk(Step(s, e), i)
  {
    hide EndOk;
    hide EndInv;
    hide StepAgent;
    hide StepMover;
    hide StepRunner;
    if AgentEnabled(s, e) {
      AgentEnd(s, e, i);
    } else if MoverEnabled(s, e) {
      MoverCarries(s, e, i);
      WorkerCarryEnd(s, StepMover(s, e), e.w, i);
    } else {
      match e
      case Dispatch(w) => DispatchEnd(s, w, i);
      case Act(w, act) => ActEnd(s, w, act, i);
      case Settle(w) => SettleEnd(s, w, i);
      case Look(_) => LookEnd(s, e, i);
      case TryPark(_) => LookEnd(s, e, i);
      case _ => FreeingEnd(s, e, i);
    }
  }

  lemma StepKeepsEndInv(s: State, e: Event)
    requires EndInv(s) && Enabled(s, e)
    ensures EndInv(Step(s, e))
  {
    hide EndOk;
    hide WakeInv;
    hide Step;
    StepKeepsWakeInv(s, e);
    forall i | 0 <= i < |s.fibers| ensures EndOk(Step(s, e), i) { StepEnd(s, e, i); }
  }

  lemma {:induction false} RunKeepsEndInv(s: State, es: seq<Event>)
    requires EndInv(s) && Valid(s, es)
    ensures EndInv(Execute(s, es))
    decreases |es|
  {
    hide EndInv;
    if es != [] {
      StepKeepsEndInv(s, es[0]);
      RunKeepsEndInv(Step(s, es[0]), es[1..]);
    }
  }

  // ----- the exact condition -----

  /** The fiber has been resumed, or is queued, or is on its way into a queue. */
  ghost predicate Requeued(s: State, i: nat)
    requires i < |s.fibers|
  {
    || s.fibers[i].phase == Resumed
    || Tasks(s.mesh)[i] > 0
    || (exists w :: 0 <= w < |s.workers| && WorkerCarrier(s.workers[w]) && WorkerHas(s.workers[w], i) > 0)
    || (exists a :: 0 <= a < |s.agents| && AgentHas(s.agents[a], i) > 0)
  }

  lemma {:induction false} SomeWorker(ws: seq<WorkerPc>, i: nat) returns (w: nat)
    requires WorkersHave(ws, i) > 0
    ensures w < |ws| && WorkerHas(ws[w], i) > 0
  {
    if WorkerHas(ws[0], i) > 0 {
      w := 0;
    } else {
      w := SomeWorker(ws[1..], i);
      w := w + 1;
    }
  }

  lemma {:induction false} SomeAgent(ags: seq<AgentPc>, i: nat) returns (a: nat)
    requires AgentsHave(ags, i) > 0
    ensures a < |ags| && AgentHas(ags[a], i) > 0
  {
    if AgentHas(ags[0], i) > 0 {
      a := 0;
    } else {
      a := SomeAgent(ags[1..], i);
      a := a + 1;
    }
  }

  lemma MisreadIsRequeued(s: State, i: nat)
    requires EndInv(s) && i < |s.fibers| && s.fibers[i].misread
    ensures Requeued(s, i) || i in s.dropped
  {
    hide Tasks;
    hide WorkersHave;
    hide AgentsHave;
    assert EndOk(s, i) && Fits(s, i);
    assert Places(s, i) == 1;
    if WorkersHave(s.workers, i) > 0 {
      var w := SomeWorker(s.workers, i);
      assert HasRead(s.workers[w], s.fibers[i]) || s.fibers[i].phase == Resumed;
    } else if AgentsHave(s.agents, i) > 0 {
      var a := SomeAgent(s.agents, i);
    }
  }

  lemma RequeuedIsMisread(s: State, i: nat)
    requires EndInv(s) && i < |s.fibers| && Ended(s.fibers[i]) && (Requeued(s, i) || i in s.dropped)
    ensures s.fibers[i].misread
  {
    hide Tasks;
    hide WakeInv;
    assert EndOk(s, i);
  }

  /** In every run: an ended fiber has been resumed, is queued again or on its way there (or
      its re-enqueue failed) if and only if its dispatcher read Notified after its end. */
  lemma EndedFiberRequeuedIff(n: nat, pool: nat, agents: nat, es: seq<Event>, i: nat)
    requires 0 < n && i < pool && Valid(Fresh0(n, pool, agents), es)
    ensures var s := Execute(Fresh0(n, pool, agents), es);
            Ended(s.fibers[i]) ==> (s.fibers[i].misread <==> Requeued(s, i) || i in s.dropped)
  {
    var s := Execute(Fresh0(n, pool, agents), es);
    FreshEndInv(n, pool, agents);
    RunKeepsEndInv(Fresh0(n, pool, agents), es);
    if s.fibers[i].misread { MisreadIsRequeued(s, i); }
    if Ended(s.fibers[i]) && (Requeued(s, i) || i in s.dropped) { RequeuedIsMisread(s, i); }
  }

  /** The read is the guard of the failing branch: an ended fiber becomes misread exactly when
      its dispatcher looks while its state is Notified. */
  lemma LookDecides(s: State, w: nat)
    requires EndInv(s) && RunnerEnabled(s, Look(w)) && s.fibers[s.workers[w].i].phase == Over
    ensures var i, s' := s.workers[w].i, Step(s, Look(w));
            && (s'.fibers[i].misread <==> s.fibers[i].st == Notified)
            && (s'.workers[w] == Settling(i, Finished) <==> s.fibers[i].st == Finished)
            && (s.fibers[i].st == Finished || s.fibers[i].st == Notified)
  {
    hide Tasks;
    hide Places;
    var i := s.workers[w].i;
    assert EndOk(s, i) && Fits(s, i);
    assert WorkerHas(s.workers[w], i) > 0;
  }

  /** A dispatch resumes a fiber past its end exactly when that fiber was misread. */
  lemma DispatchResumesIff(s: State, w: nat)
    requires EndInv(s) && RunnerEnabled(s, Dispatch(w))
    ensures var i := s.mesh.locals[w][0]; Step(s, Dispatch(w)).fibers[i].phase == Resumed <==> s.fibers[i].misread
  {
    hide Tasks;
    hide Places;
    var i := s.mesh.locals[w][0];
    TakeLocalTasks(s.mesh, w);
    assert Tasks(s.mesh)[i] > 0;
    assert EndOk(s, i) && Fits(s, i);
  }

  // ----- every continuation -----

  function StateAt(s: State, es: seq<Event>, k: nat): State
    requires Valid(s, es) && k <= |es|
    decreases k
  {
    if k == 0 then s else StateAt(Step(s, es[0]), es[1..], k - 1)
  }

  /** The dispatcher has read Finished and has yet to reset the context. */
  predicate ReadFinished(s: State, w: nat, i: nat) {
    && w < |s.workers| && i < |s.fibers| && s.fibers[i].phase == Over
    && (s.workers[w] == Settling(i, Finished) || s.workers[w] == Resetting(i))
  }

  predicate IsReset(s: State, w: nat, i: nat) {
    w < |s.workers| && i < |s.fibers| && s.workers[w] == Freeing(i) && s.fibers[i].phase == Vacant
  }

  /** Only the holder changes the phase of the fiber in its hands. */
  lemma OthersKeepPhase(s: State, e: Event, w: nat, i: nat)
    requires Owned(s) && Enabled(s, e) && w < |s.workers| && WorkerHas(s.workers[w], i) > 0
    requires RunnerEnabled(s, e) || MoverEnabled(s, e) ==> e.w != w
    ensures i < |s.fibers| && Step(s, e).workers[w] == s.workers[w] && Step(s, e).fibers[i].phase == s.fibers[i].phase
  {
    hide Tasks;
    hide Places;
    WorkerHolds(s, w, i);
    if AgentEnabled(s, e) {
      AgentKeepsPhase(s, e, i);
    } else if MoverEnabled(s, e) {
      MoverCarries(s, e, i);
    } else {
      RunnerKeepsPhase(s, e, w, i);
    }
  }

  lemma AgentKeepsPhase(s: State, e: Event, i: nat)
    requires Owned(s) && AgentEnabled(s, e) && i < |s.fibers|
    requires forall a :: 0 <= a < |s.agents| ==> AgentHas(s.agents[a], i) == 0
    ensures StepAgent(s, e).workers == s.workers && StepAgent(s, e).fibers[i].phase == s.fibers[i].phase
  {
    hide Tasks;
    hide Places;
    if AgentMove(e) {
      AgentMoveCarries(s, e, i);
    } else if e.Publish? {
      assert AgentHas(s.agents[e.a], s.agents[e.a].i) == 1;
    }
  }

  lemma RunnerKeepsPhase(s: State, e: Event, w: nat, i: nat)
    requires Owned(s) && RunnerEnabled(s, e) && w < |s.workers| && e.w != w && WorkerHas(s.workers[w], i) > 0
    ensures i < |s.fibers| && StepRunner(s, e).workers[w] == s.workers[w]
    ensures StepRunner(s, e).fibers[i].phase == s.fibers[i].phase
  {
    hide Tasks;
    hide Places;
    WorkerHolds(s, w, i);
    assert WorkerHas(s.workers[e.w], i) == 0;
    match e
    case Dispatch(u) => TakeLocalTasks(s.mesh, u);
    case Settle(u) => SettleHandles(s, u, i);
    case Act(u, act) => ActHandles(s, u, act);
    case Look(_) => LookHandles(s, e);
    case TryPark(_) => LookHandles(s, e);
    case _ => FreeingHandles(s, e);
  }

  lemma ReadFinishedGoesOn(s: State, e: Event, w: nat, i: nat)
    requires EndInv(s) && Enabled(s, e) && ReadFinished(s, w, i)
    ensures ReadFinished(Step(s, e), w, i) || IsReset(Step(s, e), w, i)
  {
    hide Fits;
    hide EndOk;
    hide Owned;
    assert WorkerHas(s.workers[w], i) > 0;
    if (RunnerEnabled(s, e) || MoverEnabled(s, e)) && e.w == w {
      assert e == Settle(w) || e == Reset(w);
    } else {
      OthersKeepPhase(s, e, w, i);
    }
  }

  /** Read as Finished, the context is freed in every continuation: the fiber stays with its
      dispatcher, past its end, until that dispatcher resets it. */
  lemma {:induction false} ReadFinishedIsFreed(s: State, es: seq<Event>, w: nat, i: nat) returns (k: nat)
    requires EndInv(s) && Valid(s, es) && ReadFinished(s, w, i)
    ensures k <= |es| && forall j :: 0 <= j < k ==> ReadFinished(StateAt(s, es, j), w, i)
    ensures IsReset(StateAt(s, es, k), w, i) || (k == |es| && ReadFinished(StateAt(s, es, k), w, i))
    decreases |es|
  {
    hide EndInv;
    hide ReadFinished;
    hide IsReset;
    hide Step;
    k := 0;
    if es != [] {
      ReadFinishedGoesOn(s, es[0], w, i);
      var s1 := Step(s, es[0]);
      StepKeepsEndInv(s, es[0]);
      if ReadFinished(s1, w, i) {
        var r := ReadFinishedIsFreed(s1, es[1..], w, i);
        k := r + 1;
        forall j | 0 <= j < k ensures ReadFinished(StateAt(s, es, j), w, i) {
          if j > 0 { assert StateAt(s, es, j) == StateAt(s1, es[1..], j - 1); }
        }
      } else {
        k := 1;
        assert StateAt(s, es, 1) == StateAt(s1, es[1..], 0);
      }
    }
  }

  lemma ActKeepsMisread(f: Fiber, act: FiberAct)
    ensures ActOn(f, act).0.misread == f.misread
  {
  }

  lemma RunnerKeepsMisread(s: State, e: Event, i: nat)
    requires Shape(s) && RunnerEnabled(s, e) && i < |s.fibers| && s.fibers[i].misread
    ensures StepRunner(s, e).fibers[i].misread
  {
    hide SetLocal;
    hide PushLocal;
    hide ActOn;
    match e
    case Act(w, act) => ActKeepsMisread(s.fibers[s.workers[w].i], act);
    case Settle(w) => assert DoSettle(s, w).fibers == s.fibers;
    case _ =>
  }

  lemma StepKeepsMisread(s: State, e: Event, i: nat)
    requires EndInv(s) && Enabled(s, e) && i < |s.fibers| && s.fibers[i].misread
    ensures Step(s, e).fibers[i].misread
  {
    hide EndInv;
    hide StepAgent;
    hide StepMover;
    hide StepRunner;
    if AgentEnabled(s, e) {
      AgentKeepsMisread(s, e, i);
    } else if MoverEnabled(s, e) {
      MoverCarries(s, e, i);
    } else {
      RunnerKeepsMisread(s, e, i);
    }
  }

  lemma AgentKeepsMisread(s: State, e: Event, i: nat)
    requires EndInv(s) && AgentEnabled(s, e) && i < |s.fibers| && s.fibers[i].misread
    ensures StepAgent(s, e).fibers[i].misread
  {
    hide Tasks;
    hide Places;
    assert EndOk(s, i) && Fits(s, i);
    if AgentMove(e) {
      AgentMoveCarries(s, e, i);
    } else if e.Publish? {
      assert AgentHas(s.agents[e.a], s.agents[e.a].i) == 1;
    }
  }

  /** Read as Notified, it stays past its end in every continuation, and its context is never
      freed. */
  lemma {:induction false} MisreadIsNeverFreed(s: State, es: seq<Event>, i: nat)
    requires EndInv(s) && Valid(s, es) && i < |s.fibers| && s.fibers[i].misread
    ensures var f := Execute(s, es); f.fibers[i].misread && Ended(f.fibers[i]) && i !in f.free
    decreases |es|
  {
    if es == [] {
      assert EndOk(s, i) && Fits(s, i);
    } else {
      hide EndInv;
      StepKeepsMisread(s, es[0], i);
      StepKeepsEndInv(s, es[0]);
      MisreadIsNeverFreed(Step(s, es[0]), es[1..], i);
    }
  }

  // ----- the dispatcher's own steps -----

  /** After the read of Notified the dispatcher's next step queues the fiber again. */
  lemma MisreadRequeues(s: State, w: nat) returns (es: seq<Event>)
    requires Shape(s) && w < |s.workers| && s.workers[w].Back? && s.workers[w].i < |s.fibers|
    requires var f := s.fibers[s.workers[w].i]; f.phase == Over && f.st == Notified
    requires !LocalFull(s.mesh.locals[w])
    ensures Valid(s, es)
    ensures var i, t := s.workers[w].i, Execute(s, es);
            && Shape(t) && t.workers == s.workers[w := Idle]
            && t.mesh == SetLocal(s.mesh, w, s.mesh.locals[w] + [i])
            && t.fibers == s.fibers[i := s.fibers[i].(misread := true)]
  {
    var i := s.workers[w].i;
    var s1 := Step(s, Look(w));
    assert s1 == WorkerTo(s.(fibers := s.fibers[i := s.fibers[i].(misread := true)]), w, Settling(i, Notified));
    var s2 := Step(s1, Settle(w));
    assert s2 == WorkerTo(s1.(mesh := SetLocal(s.mesh, w, s.mesh.locals[w] + [i])), w, Idle);
    hide Step;
    Prepend(s1, Settle(w), []);
    Prepend(s, Look(w), [Settle(w)]);
    es := [Look(w)] + [Settle(w)];
  }

  /** After the read of Finished its next three steps free the context. */
  lemma InTimeFrees(s: State, w: nat) returns (es: seq<Event>)
    requires Shape(s) && w < |s.workers| && s.workers[w].Back? && s.workers[w].i < |s.fibers|
    requires s.fibers[s.workers[w].i].st == Finished
    ensures Valid(s, es)
    ensures var i, t := s.workers[w].i, Execute(s, es);
            t.workers[w] == Idle && i in t.free && t.fibers[i].st == Initial && t.mesh == s.mesh
  {
    var i := s.workers[w].i;
    assert s.fibers[i := Judged(s.fibers[i])] == s.fibers;
    var s1 := Step(s, Look(w));
    assert s1 == WorkerTo(s, w, Settling(i, Finished));
    var s2 := Step(s1, Settle(w));
    assert s2 == WorkerTo(s, w, Resetting(i));
    var rest := ResetFrees(s2, w, i);
    hide Step;
    Prepend(s1, Settle(w), rest);
    Prepend(s, Look(w), [Settle(w)] + rest);
    es := [Look(w)] + ([Settle(w)] + rest);
  }

  lemma ResetFrees(s: State, w: nat, i: nat) returns (es: seq<Event>)
    requires Shape(s) && w < |s.workers| && s.workers[w] == Resetting(i) && i < |s.fibers|
    ensures Valid(s, es)
    ensures var t := Execute(s, es);
            t.workers[w] == Idle && i in t.free && t.fibers[i].st == Initial && t.mesh == s.mesh
  {
    var s1 := Step(s, Reset(w));
    assert s1 == WorkerTo(s.(fibers := s.fibers[i := s.fibers[i].(st := Initial, phase := Vacant)]), w, Freeing(i));
    var s2 := Step(s1, Release(w));
    assert s2.workers[w] == Idle && s2.free == s.free + {i} && s2.fibers == s1.fibers && s2.mesh == s.mesh;
    hide Step;
    Prepend(s1, Release(w), []);
    Prepend(s, Reset(w), [Release(w)]);
    es := [Reset(w)] + [Release(w)];
  }
}
