/** Both conditions of pinning are needed.  With one context more than the watermark the router,
    which does not look at a fiber's mode, can send a pinned fiber to another worker or to the
    warehouse; and with two workers a stale handle makes the wrong one run it. */
module LifecyclePinBound {
  import opened Arith
  import opened Limits
  import opened Mesh
  import R = Routing
  import opened FiberStatus
  import opened Lifecycle
  import opened LifecycleOwner
  import opened LifecyclePinning
  import opened LifecycleStray
  import opened LifecycleScenes
  import opened LifecycleBounds

  /** A fiber yields on a worker with room: it goes to the back of that worker's queue. */
  lemma YieldRequeues(s: State) returns (es: seq<Event>)
    requires Settled(s, Worker(0)) && s.workers[0] == Run(0) && 0 < |s.fibers|
    requires s.fibers[0].phase == Polling && !LocalFull(s.mesh.locals[0])
    ensures Real(s, es)
    ensures var t := Execute(s, es);
            && Settled(t, Host) && t.workers[0] == Idle && t.mesh == SetLocal(s.mesh, 0, s.mesh.locals[0] + [0])
            && |t.fibers| == |s.fibers| && t.free == s.free
  {
    var s1, s2 := YieldAndLook(s);
    RequeueOne(s2);
    hide Step;
    PrependReal(s2, Settle(0), []);
    PrependReal(s1, Look(0), [Settle(0)]);
    PrependReal(s, Act(0, Yield), [Look(0)] + [Settle(0)]);
    es := [Act(0, Yield)] + ([Look(0)] + [Settle(0)]);
  }

  lemma YieldAndLook(s: State) returns (s1: State, s2: State)
    requires Settled(s, Worker(0)) && s.workers[0] == Run(0) && 0 < |s.fibers| && s.fibers[0].phase == Polling
    ensures Enabled(s, Act(0, Yield)) && s1 == Step(s, Act(0, Yield))
    ensures Enabled(s1, Look(0)) && s2 == Step(s1, Look(0))
    ensures s2 == WorkerTo(s.(fibers := s.fibers[0 := s.fibers[0].(st := Notified)]), 0, Settling(0, Notified))
  {
    s1 := Step(s, Act(0, Yield));
    assert s1 == WorkerTo(s.(fibers := s.fibers[0 := s.fibers[0].(st := Notified)]), 0, Back(0));
    assert s1.fibers[0 := Judged(s1.fibers[0])] == s1.fibers;
    s2 := Step(s1, Look(0));
  }

  lemma RequeueOne(s: State)
    requires Shape(s) && |s.workers| > 0 && s.workers[0] == Settling(0, Notified) && !LocalFull(s.mesh.locals[0])
    ensures Enabled(s, Settle(0))
    ensures Step(s, Settle(0)) == WorkerTo(s.(mesh := SetLocal(s.mesh, 0, s.mesh.locals[0] + [0])), 0, Idle)
  {
  }

  /** Worker 0's queue is at the watermark, and a fiber pinned to it waits in its external
      mailbox. */
  predicate Crowded(s: State, j: nat) {
    && Shape(s) && s.workers[0] == Idle && |s.mesh.locals[0]| == LOCAL_QUEUE_HIGH_WATERMARK
    && s.mesh.ext[0] == [Single(j)] && s.mesh.ware == []
    && (forall t :: 0 <= t < s.mesh.Workers() ==> s.mesh.mail[0][t] == [])
    && j < |s.fibers| && Homed(s.fibers[j]) && s.fibers[j].origin == 0
  }

  lemma Crowd(n: nat, pool: nat, agents: nat) returns (es: seq<Event>)
    requires 0 < n && 0 < agents && pool > LOCAL_QUEUE_HIGH_WATERMARK
    ensures Real(Fresh0(n, pool, agents), es)
    ensures Crowded(Execute(Fresh0(n, pool, agents), es), LOCAL_QUEUE_HIGH_WATERMARK)
    ensures Execute(Fresh0(n, pool, agents), es).mesh.Workers() == n
  {
    var s := Fresh0(n, pool, agents);
    var a := OneRunning(n, pool, agents);
    var s1 := Execute(s, a);
    var b := Fill(s1, Worker(0), 1, LOCAL_QUEUE_HIGH_WATERMARK - 1);
    var s2 := Execute(s1, b);
    var c := YieldRequeues(s2);
    var s3 := Execute(s2, c);
    var d := SpawnOne(s3, Host, LOCAL_QUEUE_HIGH_WATERMARK);
    RunAppend(s2, c, d);
    RunAppend(s1, b, c + d);
    RunAppend(s, a, b + (c + d));
    es := a + (b + (c + d));
  }

  lemma PollCrowd(s: State, j: nat)
    requires Crowded(s, j)
    ensures Enabled(s, Poll(0, Host))
    ensures var t := Step(s, Poll(0, Host));
            && Shape(t) && t.workers[0] == Routing(Single(j)) && t.mesh == SetExt(s.mesh, 0, []) && t.fibers == s.fibers
  {
    assert s.mesh.ext[0][1..] == [];
  }

  predicate AboutToRoute(s: State, j: nat) {
    && Shape(s) && s.workers[0] == Routing(Single(j)) && |s.mesh.locals[0]| == LOCAL_QUEUE_HIGH_WATERMARK
    && (forall t :: 0 <= t < s.mesh.Workers() ==> s.mesh.mail[0][t] == [])
    && j < |s.fibers| && s.fibers[j].origin == 0
  }

  /** Several workers: the chunk goes to another worker's mailbox. */
  lemma RouteAway(s: State, j: nat)
    requires AboutToRoute(s, j) && s.mesh.Workers() > 1
    ensures !AtHome(DoRoute(s, 0), j)
  {
    var n := s.mesh.Workers();
    var k := Chunk([j], 1);
    var t := R.HopTarget(n, Worker(0), 1);
    var s' := DoRoute(s, 0);
    assert n / 2 >= 1;
    assert s'.mesh == SetMail(s.mesh, 0, t, s.mesh.mail[0][t] + [k]);
    BagSnoc(s.mesh.mail[0][t], k);
    assert Bag(Inbox(s'.mesh, Worker(0), t))[j] == 1;
  }

  /** A single worker: the chunk is on its way to the warehouse. */
  lemma RouteParks(s: State, j: nat)
    requires AboutToRoute(s, j) && s.mesh.Workers() == 1
    ensures !AtHome(DoRoute(s, 0), j)
  {
    assert DoRoute(s, 0).workers[0] == Parking(Single(j));
    assert !HandHome(Parking(Single(j)), 0, j, 0);
  }

  lemma RouteCrowd(s: State, j: nat)
    requires AboutToRoute(s, j)
    ensures Enabled(s, Route(0)) && Shape(Step(s, Route(0))) && Step(s, Route(0)).fibers == s.fibers
    ensures !AtHome(Step(s, Route(0)), j)
  {
    hide AtHome;
    assert Step(s, Route(0)) == DoRoute(s, 0);
    if s.mesh.Workers() > 1 { RouteAway(s, j); } else { RouteParks(s, j); }
  }

  /** Every pinned fiber that no wake has misdirected is home. */
  ghost predicate UnstrayedHome(s: State) {
    Shape(s) && forall i :: 0 <= i < |s.fibers| && Homed(s.fibers[i]) ==> AtHome(s, i)
  }

  lemma LargerPoolLeavesHome(n: nat, pool: nat, agents: nat) returns (es: seq<Event>)
    requires 0 < n && 0 < agents && pool > LOCAL_QUEUE_HIGH_WATERMARK
    ensures Real(Fresh0(n, pool, agents), es) && !UnstrayedHome(Execute(Fresh0(n, pool, agents), es))
  {
    hide AtHome;
    var s := Fresh0(n, pool, agents);
    var j := LOCAL_QUEUE_HIGH_WATERMARK;
    var a := Crowd(n, pool, agents);
    var s1 := Execute(s, a);
    PollCrowd(s1, j);
    var s2 := Step(s1, Poll(0, Host));
    RouteCrowd(s2, j);
    PrependReal(s2, Route(0), []);
    PrependReal(s1, Poll(0, Host), [Route(0)]);
    var b := [Poll(0, Host)] + [Route(0)];
    RunAppend(s, a, b);
    es := a + b;
  }

  /** The pool bound of pinning: in every run every pinned fiber that no wake has misdirected is
      home, exactly when the pool holds at most LOCAL_QUEUE_HIGH_WATERMARK contexts. */
  lemma PinnedStaysHomeIff(n: nat, pool: nat, agents: nat)
    requires 0 < n && 0 < agents
    ensures (forall es :: Real(Fresh0(n, pool, agents), es) ==> UnstrayedHome(Execute(Fresh0(n, pool, agents), es)))
            <==> pool <= LOCAL_QUEUE_HIGH_WATERMARK
  {
    hide AtHome;
    var s := Fresh0(n, pool, agents);
    if pool <= LOCAL_QUEUE_HIGH_WATERMARK {
      forall es | Real(s, es) ensures UnstrayedHome(Execute(s, es)) {
        FreshStrayInv(n, pool, agents);
        RunKeepsStrayInv(s, es);
      }
    } else {
      var es := LargerPoolLeavesHome(n, pool, agents);
    }
  }

  // ----- a stale handle -----

  /** A fiber pinned to worker 0 is parked in a context whose first fiber was spawned on
      worker 1. */
  predicate Reused(s: State) {
    && Quiet(s, 0) && Quiet(s, 1) && |s.fibers| > 0
    && s.fibers[0].pinned && s.fibers[0].origin == 0 && s.fibers[0].st == Yielded && 1 in s.fibers[0].issued
  }

  lemma Reuse(n: nat, pool: nat, agents: nat) returns (es: seq<Event>)
    requires 1 < n && 0 < agents && 0 < pool
    ensures Real(Fresh0(n, pool, agents), es) && Reused(Execute(Fresh0(n, pool, agents), es))
  {
    hide Real;
    hide Execute;
    var s := Fresh0(n, pool, agents);
    assert 0 in s.free by { assert Upto(pool)[0] == 0; }
    var a := HostStarts(s, 1, 0);
    var u := s.(free := s.free - {0});
    var f := Entered(Born(s.fibers[0], true, 1), 1);
    assert Started(s, 1, 0) == Put(u, 0, f, 1, Run(0));
    var b := EndAndFree(u, 0, f, 1);
    var s2 := Put(u, 0, f.(st := Initial, phase := Vacant), 1, Idle).(free := u.free + {0});
    RunAppend(s, a, b);
    var c := HostStarts(s2, 0, 0);
    RunAppend(s, a + b, c);
    var v := s2.(free := s2.free - {0});
    var g := Entered(Born(s2.fibers[0], true, 0), 0);
    assert Started(s2, 0, 0) == Put(v, 0, g, 0, Run(0));
    var d := WaitAndPark(v, 0, g, 0);
    RunAppend(s, a + b + c, d);
    es := a + b + c + d;
  }

  /** A wake through the first fiber's handle sends the second to worker 1, which runs it. */
  lemma StaleWake(s: State) returns (es: seq<Event>)
    requires Reused(s) && 1 < s.mesh.Workers()
    ensures Real(s, es)
    ensures var t := Execute(s, es); t.workers[1] == Run(0) && t.fibers[0].pinned && t.fibers[0].origin == 0
    ensures var t := Execute(s, es); Shape(t) && |t.fibers| == |s.fibers| && t.fibers[0].ran == s.fibers[0].ran + {1}
  {
    var n := s.mesh.Workers();
    var v := s.(fibers := s.fibers[0 := Woken(s.fibers[0], n, 1)]);
    var t1 := AgentTo(v, 0, Enqueuing(0, 1));
    assert Step(s, Wake(0, 0, 1)) == t1;
    ModSmall(1, n);
    HostEnqueues(v, 1, 0, 1);
    var more := WorkerStarts(v, 1, 0);
    hide Step;
    PrependReal(t1, Enqueue(0, Host, false, 0), more);
    PrependReal(s, Wake(0, 0, 1), [Enqueue(0, Host, false, 0)] + more);
    es := [Wake(0, 0, 1)] + ([Enqueue(0, Host, false, 0)] + more);
  }

  /** Two workers and one context are enough for a stale handle to make another worker run a
      pinned fiber: an admissible run from the initial state. */
  lemma StaleHandleLeavesHome(n: nat, pool: nat, agents: nat) returns (es: seq<Event>)
    requires 1 < n && 0 < agents && 0 < pool
    ensures Real(Fresh0(n, pool, agents), es)
    ensures var t := Execute(Fresh0(n, pool, agents), es);
            && t.workers[1] == Run(0) && t.fibers[0].pinned && t.fibers[0].origin == 0 && !PinnedHome(t)
  {
    var s := Fresh0(n, pool, agents);
    var a := Reuse(n, pool, agents);
    var b := StaleWake(Execute(s, a));
    RunAppend(s, a, b);
    es := a + b;
    var t := Execute(s, es);
    assert 1 in t.fibers[0].ran;
    assert !AtHome(t, 0);
  }

  ghost predicate NoneStrayed(s: State) {
    StrayInv(s) && s.mesh.Workers() == 1 && forall i :: 0 <= i < |s.fibers| ==> !Strayed(s.fibers[i])
  }

  /** With a single worker every core is home. */
  lemma OneWorkerStep(s: State, e: Event)
    requires NoneStrayed(s) && Enabled(s, e)
    ensures NoneStrayed(Step(s, e))
  {
    hide Owned;
    StepKeepsStrayInv(s, e);
    forall i | 0 <= i < |s.fibers| ensures !Strayed(Step(s, e).fibers[i]) {
      StrayedIff(s, e, i);
      if Homed(s.fibers[i]) { assert AtHome(s, i); }
    }
    hide StrayInv;
    hide Step;
  }

  lemma {:induction false} OneWorkerRun(s: State, es: seq<Event>)
    requires NoneStrayed(s) && Valid(s, es)
    ensures NoneStrayed(Execute(s, es))
    decreases |es|
  {
    hide NoneStrayed;
    if es != [] {
      OneWorkerStep(s, es[0]);
      OneWorkerRun(Step(s, es[0]), es[1..]);
    }
  }

  /** Pinning in full: every pinned fiber stays home in every run of the code exactly when there
      is no context at all, or a single worker and a pool up to the watermark. */
  lemma AlwaysHomeIff(n: nat, pool: nat, agents: nat)
    requires 0 < n && 0 < agents
    ensures (forall es :: Real(Fresh0(n, pool, agents), es) ==> PinnedHome(Execute(Fresh0(n, pool, agents), es)))
            <==> pool == 0 || (n == 1 && pool <= LOCAL_QUEUE_HIGH_WATERMARK)
  {
    hide AtHome;
    hide Owned;
    var s := Fresh0(n, pool, agents);
    if pool == 0 {
    } else if pool > LOCAL_QUEUE_HIGH_WATERMARK {
      var es := LargerPoolLeavesHome(n, pool, agents);
    } else if n > 1 {
      var es := StaleHandleLeavesHome(n, pool, agents);
    } else {
      FreshStrayInv(n, pool, agents);
      forall es | Real(s, es) ensures PinnedHome(Execute(s, es)) {
        OneWorkerRun(s, es);
      }
    }
  }
}
