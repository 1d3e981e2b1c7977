/** Runs that the code itself can make, and the scenes from which the reachability results are
    composed: a host thread starts a fiber on a worker, the fiber parks, the fiber ends. */
module LifecycleScenes {
  import opened Arith
  import opened Limits
  import opened Mesh
  import opened FiberStatus
  import opened Lifecycle

  // ----- runs of the code -----

  /** What the code allows beyond `Enabled`: a push in a worker's name is made by a fiber that is
      running on that worker, and a wake carries a core that some handle or waiter entry of the
      context, of this incarnation or an earlier one, was given.  (Safety is proved for all
      runs, admissible or not.) */
  predicate AdmissibleStep(s: State, e: Event) {
    match e
    case Enqueue(_, Worker(p), _, _) => p < |s.workers| && s.workers[p].Run?
    case Hop(a) =>
      a < |s.agents| && s.agents[a].Hopping? && s.agents[a].caller.Worker? ==>
        s.agents[a].caller.id < |s.workers| && s.workers[s.agents[a].caller.id].Run?
    case Wake(_, f, core) => f < |s.fibers| && core in s.fibers[f].issued
    case _ => true
  }

  predicate Admissible(s: State, es: seq<Event>)
    requires Valid(s, es)
    decreases |es|
  {
    es == [] || (AdmissibleStep(s, es[0]) && Admissible(Step(s, es[0]), es[1..]))
  }

  /** A run of the code: enabled steps, made by threads that can make them. */
  predicate Real(s: State, es: seq<Event>) { Valid(s, es) && Admissible(s, es) }

  lemma PrependReal(s: State, e: Event, es: seq<Event>)
    requires Enabled(s, e) && AdmissibleStep(s, e) && Real(Step(s, e), es)
    ensures Real(s, [e] + es) && Execute(s, [e] + es) == Execute(Step(s, e), es)
  {
    assert ([e] + es)[1..] == es;
  }

  lemma {:induction false} RunAppend(s: State, es: seq<Event>, fs: seq<Event>)
    requires Real(s, es) && Real(Execute(s, es), fs)
    ensures Real(s, es + fs) && Execute(s, es + fs) == Execute(Execute(s, es), fs)
    decreases |es|
  {
    if es == [] {
      assert es + fs == fs;
    } else {
      assert (es + fs)[1..] == es[1..] + fs;
      RunAppend(Step(s, es[0]), es[1..], fs);
    }
  }

  predicate NoWakeOf(es: seq<Event>, i: nat) {
    forall k :: 0 <= k < |es| ==> !(es[k].Wake? && es[k].f == i)
  }

  predicate NoWakes(es: seq<Event>) { forall k :: 0 <= k < |es| ==> !es[k].Wake? }

  /** A run that has reached `t` goes on with `e`. */
  lemma Then(s: State, es: seq<Event>, t: State, e: Event) returns (es': seq<Event>, t': State)
    requires Real(s, es) && Execute(s, es) == t && Enabled(t, e) && AdmissibleStep(t, e)
    ensures Real(s, es') && t' == Step(t, e) == Execute(s, es') && es' == es + [e]
  {
    t' := Step(t, e);
    PrependReal(t, e, []);
    assert [e] + [] == [e];
    RunAppend(s, es, [e]);
    es' := es + [e];
  }

  // ----- one fiber on one worker -----

  /** `s` with fiber `j` as `f` and worker `p` at `pc`. */
  function Put(s: State, j: nat, f: Fiber, p: nat, pc: WorkerPc): State
    requires j < |s.fibers| && p < |s.workers|
  {
    s.(fibers := s.fibers[j := f], workers := s.workers[p := pc])
  }

  lemma PutSelf(s: State, j: nat, p: nat)
    requires j < |s.fibers| && p < |s.workers|
    ensures Put(s, j, s.fibers[j], p, s.workers[p]) == s
  {
    assert s.fibers[j := s.fibers[j]] == s.fibers;
    assert s.workers[p := s.workers[p]] == s.workers;
  }

  lemma ActPut(s: State, j: nat, f: Fiber, p: nat, act: FiberAct)
    requires Shape(s) && j < |s.fibers| && p < |s.workers| && CanAct(s, f, act)
    ensures var t := Put(s, j, f, p, Run(j));
            var r := ActOn(f, act);
            && Enabled(t, Act(p, act)) && AdmissibleStep(t, Act(p, act))
            && Step(t, Act(p, act)) == Put(s, j, r.0, p, if r.1 then Back(j) else Run(j))
  {
    hide ActOn;
    var t := Put(s, j, f, p, Run(j));
    var g := ActOn(f, act).0;
    assert t.fibers[j := g] == s.fibers[j := g];
    assert t.workers[p := Back(j)] == s.workers[p := Back(j)];
  }

  /** What the dispatcher does with the fiber that came back. */
  lemma LookPut(s: State, j: nat, f: Fiber, p: nat)
    requires Shape(s) && j < |s.fibers| && p < |s.workers|
    ensures var t := Put(s, j, f, p, Back(j));
            && Enabled(t, Look(p)) && AdmissibleStep(t, Look(p))
            && Step(t, Look(p)) == (if f.st == Suspending then Put(s, j, f, p, ParkCas(j))
                                    else Put(s, j, Judged(f), p, Settling(j, f.st)))
  {
    var t := Put(s, j, f, p, Back(j));
    assert t.fibers[j := Judged(f)] == s.fibers[j := Judged(f)];
    assert t.workers[p := ParkCas(j)] == s.workers[p := ParkCas(j)];
    assert t.workers[p := Settling(j, f.st)] == s.workers[p := Settling(j, f.st)];
  }

  lemma ParkPut(s: State, j: nat, f: Fiber, p: nat)
    requires Shape(s) && j < |s.fibers| && p < |s.workers| && f.st == Suspending
    ensures var t := Put(s, j, f, p, ParkCas(j));
            && Enabled(t, TryPark(p)) && AdmissibleStep(t, TryPark(p))
            && Step(t, TryPark(p)) == Put(s, j, f.(st := Yielded), p, Idle)
  {
    var t := Put(s, j, f, p, ParkCas(j));
    assert t.fibers[j := f.(st := Yielded)] == s.fibers[j := f.(st := Yielded)];
    assert t.workers[p := Idle] == s.workers[p := Idle];
  }

  /** The dispatcher puts a notified fiber back in its empty queue. */
  lemma RequeuePut(s: State, j: nat, f: Fiber, p: nat)
    requires Shape(s) && j < |s.fibers| && p < |s.workers| && s.mesh.locals[p] == []
    ensures var t := Put(s, j, f, p, Settling(j, Notified));
            && Enabled(t, Settle(p)) && AdmissibleStep(t, Settle(p))
            && Step(t, Settle(p)) == Put(s, j, f, p, Idle).(mesh := SetLocal(s.mesh, p, [j]))
  {
    var t := Put(s, j, f, p, Settling(j, Notified));
    assert t.workers[p := Idle] == s.workers[p := Idle];
    assert [] + [j] == [j];
  }

  lemma SuspendActs(f: Fiber)
    requires f.st == Running
    ensures var g := f.(st := Suspending, phase := AtSwitch);
            && ActOn(f, Pend) == (f.(phase := AtCas), false)
            && ActOn(f.(phase := AtCas), Cas) == (g, false)
            && ActOn(g, Switch) == (g.(phase := AtLoad), true)
  {
  }

  /** The fiber, inside a wait whose poll is pending and not woken, suspends and is parked. */
  lemma Suspend(s: State, j: nat, f: Fiber, p: nat) returns (es: seq<Event>)
    requires Shape(s) && j < |s.fibers| && p < |s.workers|
    requires f.phase == Polling && f.st == Running && f.waits != []
    ensures Real(Put(s, j, f, p, Run(j)), es)
    ensures Execute(Put(s, j, f, p, Run(j)), es) == Put(s, j, f.(st := Yielded, phase := AtLoad), p, Idle)
    ensures NoWakes(es)
    ensures es == [Act(p, Pend), Act(p, Cas), Act(p, Switch), Look(p), TryPark(p)]
  {
    hide Step;
    hide Enabled;
    hide AdmissibleStep;
    hide Put;
    hide ActOn;
    SuspendActs(f);
    var g := f.(st := Suspending, phase := AtSwitch);
    var s0 := Put(s, j, f, p, Run(j));
    var t := s0;
    ActPut(s, j, f, p, Pend);
    ActPut(s, j, f.(phase := AtCas), p, Cas);
    ActPut(s, j, g, p, Switch);
    LookPut(s, j, g.(phase := AtLoad), p);
    ParkPut(s, j, g.(phase := AtLoad), p);
    es, t := Then(s0, [], t, Act(p, Pend));
    hide Real;
    hide Execute;
    es, t := Then(s0, es, t, Act(p, Cas));
    es, t := Then(s0, es, t, Act(p, Switch));
    es, t := Then(s0, es, t, Look(p));
    es, t := Then(s0, es, t, TryPark(p));
  }

  /** The fiber begins a wait, finds its first poll pending and is parked. */
  lemma WaitAndPark(s: State, j: nat, f: Fiber, p: nat) returns (es: seq<Event>)
    requires Shape(s) && j < |s.fibers| && p < |s.workers| && f.phase == Polling && f.st == Running && f.waits == []
    ensures Real(Put(s, j, f, p, Run(j)), es)
    ensures Execute(Put(s, j, f, p, Run(j)), es)
            == Put(s, j, f.(st := Yielded, phase := AtLoad, waits := [Wait(false, false, false)]), p, Idle)
    ensures NoWakes(es)
  {
    hide Step;
    hide Enabled;
    hide AdmissibleStep;
    hide Put;
    var s0, ws := Put(s, j, f, p, Run(j)), [Wait(false, false, false)];
    var t := s0;
    assert Opened([]) == ws && Polled(ws) == ws;
    ActPut(s, j, f, p, Begin);
    ActPut(s, j, f.(phase := AtLoad, waits := ws), p, Load);
    es, t := Then(s0, [], t, Act(p, Begin));
    hide Real;
    hide Execute;
    es, t := Then(s0, es, t, Act(p, Load));
    var more := Suspend(s, j, f.(waits := ws), p);
    RunAppend(s0, es, more);
    es := es + more;
  }

  // ----- ending -----

  /** The dispatcher frees the context of a fiber it has read Finished of. */
  lemma FreePut(s: State, j: nat, f: Fiber, p: nat) returns (es: seq<Event>)
    requires Shape(s) && j < |s.fibers| && p < |s.workers|
    ensures Real(Put(s, j, f, p, Settling(j, Finished)), es)
    ensures Execute(Put(s, j, f, p, Settling(j, Finished)), es)
            == Put(s, j, f.(st := Initial, phase := Vacant), p, Idle).(free := s.free + {j})
  {
    var t0 := Put(s, j, f, p, Settling(j, Finished));
    var t1 := Put(s, j, f, p, Resetting(j));
    var g := f.(st := Initial, phase := Vacant);
    var t2 := Put(s, j, g, p, Freeing(j));
    assert Step(t0, Settle(p)) == t1 by { assert t0.workers[p := Resetting(j)] == t1.workers; }
    assert Step(t1, Reset(p)) == t2 by {
      assert t1.workers[p := Freeing(j)] == t2.workers && t1.fibers[j := g] == t2.fibers;
    }
    assert Step(t2, Release(p)) == Put(s, j, g, p, Idle).(free := s.free + {j}) by {
      assert t2.workers[p := Idle] == s.workers[p := Idle];
    }
    hide Step;
    PrependReal(t2, Release(p), []);
    PrependReal(t1, Reset(p), [Release(p)]);
    PrependReal(t0, Settle(p), [Reset(p)] + [Release(p)]);
    es := [Settle(p)] + ([Reset(p)] + [Release(p)]);
  }

  /** The fiber runs to its end and its context returns to the free list. */
  lemma EndAndFree(s: State, j: nat, f: Fiber, p: nat) returns (es: seq<Event>)
    requires Shape(s) && j < |s.fibers| && p < |s.workers| && f.phase == Polling && f.waits == []
    ensures Real(Put(s, j, f, p, Run(j)), es)
    ensures Execute(Put(s, j, f, p, Run(j)), es)
            == Put(s, j, f.(st := Initial, phase := Vacant), p, Idle).(free := s.free + {j})
  {
    hide Step;
    hide Enabled;
    hide AdmissibleStep;
    hide Put;
    var s0 := Put(s, j, f, p, Run(j));
    var g := f.(st := Finished, phase := Ending);
    var t := s0;
    ActPut(s, j, f, p, Ready);
    ActPut(s, j, g, p, Exit);
    LookPut(s, j, g.(phase := Over), p);
    es, t := Then(s0, [], t, Act(p, Ready));
    hide Real;
    hide Execute;
    es, t := Then(s0, es, t, Act(p, Exit));
    es, t := Then(s0, es, t, Look(p));
    var more := FreePut(s, j, g.(phase := Over), p);
    RunAppend(s0, es, more);
    es := es + more;
  }

  // ----- starting -----

  /** Worker `p` is at rest with nothing to do, and agent 0 is free to call. */
  predicate Quiet(s: State, p: nat) {
    && Shape(s) && |s.agents| > 0 && s.agents[0] == Rest
    && p < |s.workers| && s.workers[p] == Idle && s.mesh.locals[p] == [] && s.mesh.ext[p] == []
  }

  /** A host thread enqueues a pinned fiber for worker `p`. */
  lemma HostEnqueues(s: State, p: nat, j: nat, core: nat)
    requires Quiet(s, p) && j < |s.fibers| && s.fibers[j].pinned && core % s.mesh.Workers() == p
    ensures var t := AgentTo(s, 0, Enqueuing(j, core));
            && Enabled(t, Enqueue(0, Host, false, 0)) && AdmissibleStep(t, Enqueue(0, Host, false, 0))
            && Step(t, Enqueue(0, Host, false, 0)) == s.(mesh := SetExt(s.mesh, p, [Single(j)]))
  {
    var t := AgentTo(s, 0, Enqueuing(j, core));
    assert t.agents[0 := Rest] == s.agents;
    assert s.mesh.ext[p] + [Single(j)] == [Single(j)];
  }

  /** Worker `p` polls its external mailbox, routes the fiber into its queue and runs it. */
  lemma WorkerStarts(s: State, p: nat, j: nat) returns (es: seq<Event>)
    requires Quiet(s, p) && j < |s.fibers|
    ensures var t := s.(mesh := SetExt(s.mesh, p, [Single(j)]));
            && Real(t, es) && Execute(t, es) == Put(s, j, Entered(s.fibers[j], p), p, Run(j)) && NoWakes(es)
  {
    var t0 := s.(mesh := SetExt(s.mesh, p, [Single(j)]));
    var t1 := WorkerTo(s, p, Routing(Single(j)));
    var t2 := s.(mesh := SetLocal(s.mesh, p, [j]));
    assert Step(t0, Poll(p, Host)) == t1 by {
      assert [Single(j)][1..] == [];
      assert t0.mesh.ext[p := []] == s.mesh.ext;
    }
    assert Step(t1, Route(p)) == t2 by {
      assert [] + [j] == [j];
      assert t1.workers[p := Idle] == s.workers;
    }
    assert Step(t2, Dispatch(p)) == Put(s, j, Entered(s.fibers[j], p), p, Run(j)) by {
      assert [j][1..] == [];
      assert t2.mesh.locals[p := []] == s.mesh.locals;
    }
    hide Step;
    PrependReal(t2, Dispatch(p), []);
    PrependReal(t1, Route(p), [Dispatch(p)]);
    PrependReal(t0, Poll(p, Host), [Route(p)] + [Dispatch(p)]);
    es := [Poll(p, Host)] + ([Route(p)] + [Dispatch(p)]);
  }

  /** The state once a host thread has started a fiber pinned to worker `p` in context `j`. */
  function Started(s: State, p: nat, j: nat): State
    requires Quiet(s, p) && j < |s.fibers|
  {
    Put(s, j, Entered(Born(s.fibers[j], true, p), p), p, Run(j)).(free := s.free - {j})
  }

  lemma HostStarts(s: State, p: nat, j: nat) returns (es: seq<Event>)
    requires Quiet(s, p) && j in s.free && j < |s.fibers|
    ensures Real(s, es) && Execute(s, es) == Started(s, p, j) && NoWakes(es)
  {
    var t1 := AgentTo(s.(free := s.free - {j}), 0, Spawning(j));
    var u := s.(free := s.free - {j}, fibers := s.fibers[j := Born(s.fibers[j], true, p)]);
    var t2 := AgentTo(u, 0, Enqueuing(j, p));
    assert Step(s, Spawn(0, j)) == t1;
    assert Step(t1, Publish(0, true, p)) == t2 by { assert t1.agents[0 := Enqueuing(j, p)] == t2.agents; }
    ModSmall(p, s.mesh.Workers());
    HostEnqueues(u, p, j, p);
    var t3 := Step(t2, Enqueue(0, Host, false, 0));
    var more := WorkerStarts(u, p, j);
    assert u.fibers[j := Entered(u.fibers[j], p)] == Started(s, p, j).fibers;
    hide Step;
    PrependReal(t2, Enqueue(0, Host, false, 0), more);
    var last := [Enqueue(0, Host, false, 0)] + more;
    PrependReal(t1, Publish(0, true, p), last);
    PrependReal(s, Spawn(0, j), [Publish(0, true, p)] + last);
    es := [Spawn(0, j)] + ([Publish(0, true, p)] + last);
  }
}
