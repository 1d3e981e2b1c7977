/** The capacity bounds are exact: one context more, and some run overflows. */
module LifecycleBounds {
  import opened Arith
  import opened Limits
  import opened Mesh
  import opened FiberStatus
  import opened Lifecycle
  import opened LifecycleWake
  import opened LifecycleCapacity
  import opened LifecycleScenes

  /** Where a fiber pinned to worker 0 goes: a host thread uses the external mailbox, a fiber
      on worker 0 itself the local queue. */
  function Backlog(m: Mesh, c: Caller): nat
    requires m.Shape()
  {
    if c == Host then |m.ext[0]| else |m.locals[0]|
  }

  function Room(c: Caller): nat { if c == Host then MAILBOX_CAPACITY - 1 else LOCAL_QUEUE_CAPACITY - 1 }

  predicate Settled(s: State, c: Caller) {
    && Shape(s) && |s.agents| > 0 && s.agents[0] == Rest
    && (c == Host || (c == Worker(0) && s.workers[0].Run?))
  }

  /** `t` is `s` after spawning `k` more fibers with indices from `lo`, all queued. */
  predicate Filled(s: State, t: State, c: Caller, lo: nat, k: nat)
    requires Shape(s)
  {
    && Settled(t, c) && |t.fibers| == |s.fibers| && t.workers == s.workers && t.dropped == s.dropped
    && t.mesh.Workers() == s.mesh.Workers()
    && Backlog(t.mesh, c) == Backlog(s.mesh, c) + k
    && SameElsewhere(s.mesh, t.mesh, c)
    && (forall i :: i in s.free && i >= lo + k ==> i in t.free)
    && (forall i :: 0 <= i < lo && i < |s.fibers| ==> t.fibers[i] == s.fibers[i])
  }

  predicate Gained(m: Mesh, m': Mesh, c: Caller, j: nat)
    requires m.Shape() && m'.Shape()
  {
    if c == Host then m'.ext[0] == m.ext[0] + [Single(j)] else m'.locals[0] == m.locals[0] + [j]
  }

  /** Spawning one pinned fiber: take a context, publish it, enqueue it. */
  lemma SpawnOne(s: State, c: Caller, j: nat) returns (es: seq<Event>)
    requires Settled(s, c) && j in s.free && j < |s.fibers|
    ensures Real(s, es)
    ensures Backlog(s.mesh, c) < Room(c) ==> Filled(s, Execute(s, es), c, j, 1)
    ensures Backlog(s.mesh, c) >= Room(c) ==> Execute(s, es).rejected
    ensures Backlog(s.mesh, c) < Room(c) ==>
              && Gained(s.mesh, Execute(s, es).mesh, c, j)
              && Execute(s, es).fibers[j] == Born(s.fibers[j], true, 0)
  {
    var s1 := Step(s, Spawn(0, j));
    assert s1 == AgentTo(s.(free := s.free - {j}), 0, Spawning(j));
    var s2 := Step(s1, Publish(0, true, 0));
    var f := Born(s.fibers[j], true, 0);
    assert s2 == AgentTo(s1.(fibers := s1.fibers[j := f]), 0, Enqueuing(j, 0));
    var last := Enqueue(0, c, false, 0);
    assert 0 % s.mesh.Workers() == 0;
    EnqueueOne(s2, c, j);
    PrependReal(s2, last, []);
    PrependReal(s1, Publish(0, true, 0), [last]);
    PrependReal(s, Spawn(0, j), [Publish(0, true, 0)] + [last]);
    es := [Spawn(0, j)] + ([Publish(0, true, 0)] + [last]);
  }

  predicate SameElsewhere(m: Mesh, m': Mesh, c: Caller) {
    && m'.mail == m.mail && m'.ware == m.ware
    && (if c == Host then m'.locals == m.locals else m'.ext == m.ext)
  }

  lemma EnqueueOne(s: State, c: Caller, j: nat)
    requires Shape(s) && |s.agents| > 0 && s.agents[0] == Enqueuing(j, 0)
    requires c == Host || (c == Worker(0) && s.workers[0].Run?)
    requires j < |s.fibers| && s.fibers[j].pinned
    ensures var e := Enqueue(0, c, false, 0);
            && Enabled(s, e) && AdmissibleStep(s, e)
            && var t := Step(s, e);
            && |t.agents| == |s.agents| && t.fibers == s.fibers && t.free == s.free
            && t.workers == s.workers && t.dropped == s.dropped
            && (if Backlog(s.mesh, c) < Room(c) then t.agents[0] == Rest && Backlog(t.mesh, c) == Backlog(s.mesh, c) + 1
                else t.rejected)
            && (Backlog(s.mesh, c) < Room(c) ==> Gained(s.mesh, t.mesh, c, j) && SameElsewhere(s.mesh, t.mesh, c))
  {
    assert 0 % s.mesh.Workers() == 0;
  }

  /** Spawning `k` fibers from index `lo` on, one after the other. */
  lemma {:induction false} Fill(s: State, c: Caller, lo: nat, k: nat) returns (es: seq<Event>)
    requires Settled(s, c) && lo + k <= |s.fibers| && (forall i :: lo <= i < lo + k ==> i in s.free)
    requires Backlog(s.mesh, c) + k <= Room(c)
    ensures Real(s, es) && Filled(s, Execute(s, es), c, lo, k)
    decreases k
  {
    es := [];
    if k > 0 {
      var first := SpawnOne(s, c, lo);
      var s1 := Execute(s, first);
      var rest := Fill(s1, c, lo + 1, k - 1);
      RunAppend(s, first, rest);
      es := first + rest;
    }
  }

  /** With one context more, a mailbox can be filled and the next push fails. */
  lemma LargerPoolOverflows(n: nat, pool: nat, agents: nat) returns (es: seq<Event>)
    requires 0 < n && 0 < agents && pool >= MAILBOX_CAPACITY
    ensures Real(Fresh0(n, pool, agents), es) && Execute(Fresh0(n, pool, agents), es).rejected
  {
    var s := Fresh0(n, pool, agents);
    forall i | 0 <= i < pool ensures i in s.free { assert Upto(pool)[i] == i; }
    var fill := Fill(s, Host, 0, MAILBOX_CAPACITY - 1);
    var last := SpawnOne(Execute(s, fill), Host, MAILBOX_CAPACITY - 1);
    RunAppend(s, fill, last);
    es := fill + last;
  }

  /** The capacity theorem in full: no push fails in any run exactly when the pool is at most
      MAILBOX_CAPACITY - 1. */
  lemma NoPushFailsIff(n: nat, pool: nat, agents: nat)
    requires 0 < n && 0 < agents
    ensures (forall es :: Real(Fresh0(n, pool, agents), es) ==> !Execute(Fresh0(n, pool, agents), es).rejected)
            <==> pool <= MAILBOX_CAPACITY - 1
  {
    if pool <= MAILBOX_CAPACITY - 1 {
      forall es | Real(Fresh0(n, pool, agents), es) ensures !Execute(Fresh0(n, pool, agents), es).rejected {
        SmallPoolNeverOverflows(n, pool, agents, es);
      }
    } else {
      var es := LargerPoolOverflows(n, pool, agents);
    }
  }

  lemma SettleDrops(s: State, w: nat, i: nat)
    requires Shape(s) && w < |s.workers| && s.workers[w] == Settling(i, Notified) && LocalFull(s.mesh.locals[w])
    ensures Enabled(s, Settle(w)) && i in Step(s, Settle(w)).dropped
  {
    assert DoSettle(s, w).dropped == s.dropped + {i};
  }

  /** Yielding on a worker whose queue is full drops the fiber. */
  lemma YieldDrops(s: State, w: nat) returns (es: seq<Event>)
    requires Shape(s) && w < |s.workers| && s.workers[w].Run? && s.workers[w].i < |s.fibers|
    requires s.fibers[s.workers[w].i].phase == Polling && LocalFull(s.mesh.locals[w])
    ensures Real(s, es) && s.workers[w].i in Execute(s, es).dropped
  {
    var i := s.workers[w].i;
    var s1 := Step(s, Act(w, Yield));
    assert s1.workers[w] == Back(i) && s1.fibers[i].st == Notified && s1.mesh == s.mesh;
    var s2 := Step(s1, Look(w));
    SettleDrops(s2, w, i);
    hide Step;
    PrependReal(s2, Settle(w), []);
    PrependReal(s1, Look(w), [Settle(w)]);
    PrependReal(s, Act(w, Yield), [Look(w)] + [Settle(w)]);
    es := [Act(w, Yield)] + ([Look(w)] + [Settle(w)]);
  }

  /** The external mailbox and the mailbox row of worker 0 and the warehouse are empty. */
  predicate NoChunksAt(m: Mesh)
    requires m.Shape()
  {
    m.ext[0] == [] && m.ware == [] && forall t :: 0 <= t < m.Workers() ==> m.mail[0][t] == []
  }

  predicate FirstRuns(s: State) {
    && Settled(s, Worker(0)) && 0 < |s.fibers| && s.mesh.locals[0] == []
    && s.workers[0] == Run(0) && s.fibers[0] == Entered(Born(Blank(), true, 0), 0)
  }

  /** A host thread spawns a fiber on worker 0, which runs it; everything else is free. */
  lemma OneRunning(n: nat, pool: nat, agents: nat) returns (es: seq<Event>)
    requires 0 < n && 0 < agents && 0 < pool
    ensures Real(Fresh0(n, pool, agents), es)
    ensures var s := Execute(Fresh0(n, pool, agents), es);
            && FirstRuns(s) && |s.fibers| == pool && s.mesh.Workers() == n && NoChunksAt(s.mesh)
            && (forall i :: 1 <= i < pool ==> i in s.free)
  {
    var s := Fresh0(n, pool, agents);
    forall i | 0 <= i < pool ensures i in s.free { assert Upto(pool)[i] == i; }
    es := HostStarts(s, 0, 0);
  }

  /** A wake that lands between the end of a fiber and the dispatcher's look does resume it. */
  lemma LateWakeReachable(n: nat, pool: nat, agents: nat) returns (es: seq<Event>)
    requires 0 < n && 0 < agents && 0 < pool
    ensures Real(Fresh0(n, pool, agents), es)
    ensures var s := Execute(Fresh0(n, pool, agents), es); s.workers[0] == Run(0) && s.fibers[0].phase == Resumed
  {
    var s := Fresh0(n, pool, agents);
    var start := OneRunning(n, pool, agents);
    var s1 := Execute(s, start);
    var end := EndAndWake(s1);
    var s2 := Execute(s1, end);
    var last := ResumeEnded(s2);
    RunAppend(s1, end, last);
    RunAppend(s, start, end + last);
    es := start + (end + last);
  }

  predicate EndedAndWoken(s: State) {
    && Shape(s) && |s.fibers| > 0 && s.mesh.locals[0] == []
    && s.workers[0] == Back(0) && s.fibers[0].phase == Over && s.fibers[0].st == Notified
  }

  /** The dispatcher reads Notified, queues the fiber again and switches back into it. */
  lemma ResumeEnded(s: State) returns (es: seq<Event>)
    requires EndedAndWoken(s)
    ensures Real(s, es) && Execute(s, es).workers[0] == Run(0) && Execute(s, es).fibers[0].phase == Resumed
    ensures NoWakes(es)
  {
    var s1 := Step(s, Look(0));
    assert s1 == WorkerTo(s.(fibers := s.fibers[0 := s.fibers[0].(misread := true)]), 0, Settling(0, Notified));
    var s2 := Step(s1, Settle(0));
    assert s2.mesh.locals[0] == [0] && s2.workers[0] == Idle && s2.fibers == s1.fibers && Shape(s2);
    var s3 := Step(s2, Dispatch(0));
    assert s3.workers[0] == Run(0) && s3.fibers[0].phase == Resumed;
    hide Step;
    PrependReal(s2, Dispatch(0), []);
    PrependReal(s1, Settle(0), [Dispatch(0)]);
    PrependReal(s, Look(0), [Settle(0)] + [Dispatch(0)]);
    es := [Look(0)] + ([Settle(0)] + [Dispatch(0)]);
  }

  lemma EndAndWake(s: State) returns (es: seq<Event>)
    requires FirstRuns(s)
    ensures Real(s, es)
    ensures EndedAndWoken(Execute(s, es))
  {
    var s1 := Step(s, Act(0, Ready));
    assert s1 == s.(fibers := s.fibers[0 := s.fibers[0].(st := Finished, phase := Ending)]);
    var s2 := Step(s1, Wake(0, 0, 0));
    assert s2.workers == s.workers && s2.mesh == s.mesh && s2.fibers[0].st == Notified && s2.fibers[0].phase == Ending;
    PrependReal(s2, Act(0, Exit), []);
    PrependReal(s1, Wake(0, 0, 0), [Act(0, Exit)]);
    PrependReal(s, Act(0, Ready), [Wake(0, 0, 0)] + [Act(0, Exit)]);
    es := [Act(0, Ready)] + ([Wake(0, 0, 0)] + [Act(0, Exit)]);
  }

  /** A fiber on worker 0 spawns enough fibers pinned to its worker and then yields. */
  lemma LargerPoolDrops(n: nat, pool: nat, agents: nat) returns (es: seq<Event>)
    requires 0 < n && 0 < agents && pool >= LOCAL_QUEUE_CAPACITY
    ensures Real(Fresh0(n, pool, agents), es) && Execute(Fresh0(n, pool, agents), es).dropped != {}
  {
    var s := Fresh0(n, pool, agents);
    var start := OneRunning(n, pool, agents);
    var s1 := Execute(s, start);
    var fill := Fill(s1, Worker(0), 1, LOCAL_QUEUE_CAPACITY - 1);
    var s2 := Execute(s1, fill);
    var last := YieldDrops(s2, 0);
    RunAppend(s1, fill, last);
    RunAppend(s, start, fill + last);
    es := start + (fill + last);
  }

  /** The re-enqueue of a notified fiber succeeds in every run exactly when the pool holds at
      most LOCAL_QUEUE_CAPACITY - 1 contexts; having just freed a slot is not enough, since the
      fiber may have filled the queue while it ran. */
  lemma ReenqueueSucceedsIff(n: nat, pool: nat, agents: nat)
    requires 0 < n && 0 < agents
    ensures (forall es :: Real(Fresh0(n, pool, agents), es) ==> Execute(Fresh0(n, pool, agents), es).dropped == {})
            <==> pool <= LOCAL_QUEUE_CAPACITY - 1
  {
    var s := Fresh0(n, pool, agents);
    if pool <= LOCAL_QUEUE_CAPACITY - 1 {
      forall es | Real(s, es) ensures Execute(s, es).dropped == {} {
        FreshFits(n, pool, agents);
        RunDropsNothing(s, es);
      }
    } else {
      var es := LargerPoolDrops(n, pool, agents);
    }
  }
}
