/** Consequences of the lifecycle invariants, over every run of the machine. */
module LifecycleTheorems {
  import opened Mesh
  import opened FiberStatus
  import opened Lifecycle
  import opened LifecycleOwner
  import opened LifecycleWake

  lemma Reached(n: nat, pool: nat, agents: nat, es: seq<Event>)
    requires 0 < n && Valid(Fresh0(n, pool, agents), es)
    ensures WakeInv(Execute(Fresh0(n, pool, agents), es))
  {
    FreshFits(n, pool, agents);
    RunKeepsWakeInv(Fresh0(n, pool, agents), es);
  }

  /** The innermost open wait. */
  function Top(f: Fiber): Wait
    requires f.waits != []
  {
    f.waits[|f.waits| - 1]
  }

  /** No lost wake, exactly: in every run a parked fiber is inside a wait, in no queue and in
      nobody's hands, and a wake has landed since that wait's latest poll began -- during the
      poll, while the fiber was suspending, or racing the dispatcher's exchange -- if and only
      if a wait nested in that poll erased it. */
  lemma WakeLostIffErased(n: nat, pool: nat, agents: nat, es: seq<Event>, i: nat)
    requires 0 < n && i < pool && Valid(Fresh0(n, pool, agents), es)
    ensures var s := Execute(Fresh0(n, pool, agents), es);
            var f := s.fibers[i];
            f.st == Yielded ==>
              && f.phase == AtLoad && Tasks(s.mesh)[i] == 0 && f.waits != []
              && (Top(f).woken <==> Top(f).erased)
              && (Top(f).erased ==> Top(f).nested)
  {
    var s := Execute(Fresh0(n, pool, agents), es);
    Reached(n, pool, agents, es);
    assert Fits(s, i);
    if s.fibers[i].st == Yielded { NotInHand(s, i); }
  }

  /** No lost wake where no wait is nested: a fiber whose innermost wait began no other wait
      during its latest poll is never parked with a wake outstanding. */
  lemma NoLostWake(n: nat, pool: nat, agents: nat, es: seq<Event>, i: nat)
    requires 0 < n && i < pool && Valid(Fresh0(n, pool, agents), es)
    ensures var f := Execute(Fresh0(n, pool, agents), es).fibers[i];
            f.st == Yielded ==> f.waits != [] && (!Top(f).nested ==> !Top(f).woken)
  {
    WakeLostIffErased(n, pool, agents, es, i);
  }

  /** Fiber `i` stores Running over a wake, as the innermost of its waits, while wait `k` further
      out still has that wake to answer. */
  predicate Erases(s: State, e: Event, i: nat, k: nat) {
    && e.Act? && e.act == Store && e.w < |s.workers| && s.workers[e.w] == Run(i) && i < |s.fibers|
    && s.fibers[i].st == Notified && k < |s.fibers[i].waits| - 1 && s.fibers[i].waits[k].woken
  }

  /** Only wakes and the fiber's own acts touch its waits, until the context is reused. */
  function WaitsAfter(s: State, e: Event, i: nat): seq<Wait>
    requires Enabled(s, e) && i < |s.fibers|
  {
    var ws := s.fibers[i].waits;
    if e.Publish? && s.agents[e.a].i == i then []
    else if e.Wake? && e.f == i then AllWoken(ws)
    else if e.Act? && s.workers[e.w].i == i then ActOn(s.fibers[i], e.act).0.waits
    else ws
  }

  lemma AgentWaits(s: State, e: Event, i: nat)
    requires Shape(s) && AgentEnabled(s, e) && i < |s.fibers|
    ensures StepAgent(s, e).fibers[i].waits == WaitsAfter(s, e, i)
  {
    hide Tasks;
    hide DoEnqueue;
    hide DoHop;
    if AgentMove(e) {
      AgentMoveCarries(s, e, i);
      hide StepAgent;
    }
  }

  lemma RunnerWaits(s: State, e: Event, i: nat)
    requires Shape(s) && RunnerEnabled(s, e) && i < |s.fibers|
    ensures StepRunner(s, e).fibers[i].waits == WaitsAfter(s, e, i)
  {
    hide PushLocal;
    hide SetLocal;
    hide ActOn;
  }

  lemma StepWaits(s: State, e: Event, i: nat)
    requires Enabled(s, e) && i < |s.fibers|
    ensures Step(s, e).fibers[i].waits == WaitsAfter(s, e, i)
  {
    hide StepAgent;
    hide StepRunner;
    if AgentEnabled(s, e) {
      AgentWaits(s, e, i);
    } else if MoverEnabled(s, e) {
      hide Post;
      hide SetInbox;
    } else {
      RunnerWaits(s, e, i);
    }
  }

  lemma ActErases(s: State, f: Fiber, act: FiberAct, k: nat)
    requires RunningOk(f) && WaitsOk(f) && CanAct(s, f, act)
    requires k < |f.waits| && k < |ActOn(f, act).0.waits| && !f.waits[k].erased
    ensures ActOn(f, act).0.waits[k].erased
            <==> act == Store && f.st == Notified && k < |f.waits| - 1 && f.waits[k].woken
  {
  }

  lemma RunnerFits(s: State, w: nat, i: nat)
    requires WakeInv(s) && w < |s.workers| && s.workers[w] == Run(i) && i < |s.fibers|
    ensures RunningOk(s.fibers[i]) && WaitsOk(s.fibers[i])
  {
    hide Owned;
    hide Tasks;
    assert Fits(s, i);
    assert WorkerHas(s.workers[w], i) > 0;
  }

  /** A wake is erased by such a store and by nothing else. */
  lemma ErasedIff(s: State, e: Event, i: nat, k: nat)
    requires WakeInv(s) && Enabled(s, e) && i < |s.fibers| && k < |s.fibers[i].waits|
    requires k < |Step(s, e).fibers[i].waits| && !s.fibers[i].waits[k].erased
    ensures Step(s, e).fibers[i].waits[k].erased <==> Erases(s, e, i, k)
  {
    hide WakeInv;
    hide ActOn;
    hide RunningOk;
    hide WaitsOk;
    StepWaits(s, e, i);
    hide Step;
    if e.Act? && s.workers[e.w].i == i {
      RunnerFits(s, e.w, i);
      ActErases(s, s.fibers[i], e.act, k);
    }
  }

  lemma Prepend(s: State, e: Event, es: seq<Event>)
    requires Enabled(s, e) && Valid(Step(s, e), es)
    ensures Valid(s, [e] + es) && Execute(s, [e] + es) == Execute(Step(s, e), es)
  {
    assert ([e] + es)[1..] == es;
  }

  lemma StillNotified(s: State, w: nat)
    requires WakeInv(s) && w < |s.workers| && (s.workers[w].Back? || s.workers[w].ParkCas?)
    requires s.workers[w].i < |s.fibers| && s.fibers[s.workers[w].i].phase == AtLoad
    requires var f := s.fibers[s.workers[w].i]; f.waits != [] && Top(f).woken && !Top(f).erased
    ensures s.fibers[s.workers[w].i].st == Notified && Shape(s)
  {
    hide Tasks;
    hide Places;
    var i := s.workers[w].i;
    assert Fits(s, i);
    assert WorkerHas(s.workers[w], i) > 0;
  }

  /** A wake that has landed by the time the fiber has switched out, or lands before the
      dispatcher parks it, and that no nested wait erased, is seen: the dispatcher's own next
      steps put the fiber back in its queue, or the queue is full. */
  lemma WakeBeforeParkingRequeues(s: State, w: nat) returns (es: seq<Event>)
    requires WakeInv(s) && w < |s.workers| && (s.workers[w].Back? || s.workers[w].ParkCas?)
    requires s.workers[w].i < |s.fibers| && s.fibers[s.workers[w].i].phase == AtLoad && !LocalFull(s.mesh.locals[w])
    requires var f := s.fibers[s.workers[w].i]; f.waits != [] && Top(f).woken && !Top(f).erased
    ensures |es| == 2 && Valid(s, es)
    ensures Execute(s, es).mesh == SetLocal(s.mesh, w, s.mesh.locals[w] + [s.workers[w].i])
    ensures Execute(s, es).workers[w] == Idle
  {
    StillNotified(s, w);
    hide WakeInv;
    var i := s.workers[w].i;
    var first := if s.workers[w].Back? then Look(w) else TryPark(w);
    var s1 := Step(s, first);
    assert s.fibers[i := Judged(s.fibers[i])] == s.fibers;
    assert s1 == WorkerTo(s, w, Settling(i, Notified));
    Prepend(s1, Settle(w), []);
    Prepend(s, first, [Settle(w)]);
    es := [first] + [Settle(w)];
  }

  /** The dispatcher only ever decides between a finished fiber and a notified one: in no run
      is a fiber neither freed, requeued nor parked, except when its own queue is full. */
  lemma DispatcherNeverForgets(n: nat, pool: nat, agents: nat, es: seq<Event>, w: nat)
    requires 0 < n && w < n && Valid(Fresh0(n, pool, agents), es)
    ensures var s := Execute(Fresh0(n, pool, agents), es);
            && (s.workers[w].Settling? ==> s.workers[w].seen == Finished || s.workers[w].seen == Notified)
            && (s.dropped != {} ==> s.rejected)
  {
    hide Fits;
    var s := Execute(Fresh0(n, pool, agents), es);
    Reached(n, pool, agents, es);
    if s.workers[w].Settling? {
      WorkerHolds(s, w, s.workers[w].i);
      SettleFits(s, w, s.workers[w].i);
    }
  }

  /** A context is reset and returned to the free list only once its fiber has run to its end,
      and a free context belongs to no fiber. */
  lemma OnlyEndedFibersAreFreed(n: nat, pool: nat, agents: nat, es: seq<Event>, w: nat, i: nat)
    requires 0 < n && w < n && i < pool && Valid(Fresh0(n, pool, agents), es)
    ensures var s := Execute(Fresh0(n, pool, agents), es);
            && (s.workers[w] == Resetting(i) ==> s.fibers[i].phase == Over)
            && (s.workers[w] == Freeing(i) || i in s.free ==> s.fibers[i].phase == Vacant)
  {
    hide Owned;
    Reached(n, pool, agents, es);
    assert Fits(Execute(Fresh0(n, pool, agents), es), i);
  }
}
