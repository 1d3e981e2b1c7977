/** Back-pressure at the end of a fiber: a finished fiber that finds its joiner's mailbox full
    yields by storing Notified over Finished, and is then resumed past its end although nobody
    woke it. */
module LifecyclePressure {
  import opened Arith
  import opened Limits
  import opened Mesh
  import R = Routing
  import opened FiberStatus
  import opened Lifecycle
  import opened LifecycleScenes
  import opened LifecycleBounds

  /** Fiber 0 runs on worker 0; fiber 1, pinned to worker 1, is parked, and worker 1 is idle. */
  predicate Joining(s: State) {
    && Shape(s) && 1 < s.mesh.Workers() && |s.agents| > 0 && s.agents[0] == Rest && 1 < |s.fibers|
    && s.workers[0] == Run(0) && s.workers[1] == Idle && s.mesh.locals[0] == [] && s.mesh.locals[1] == []
    && s.fibers[0].phase == Polling && s.fibers[0].waits == []
    && s.fibers[1].pinned && s.fibers[1].st == Yielded && 1 in s.fibers[1].issued
  }

  lemma Join(n: nat, pool: nat, agents: nat) returns (es: seq<Event>)
    requires 1 < n && 0 < agents && 1 < pool
    ensures Real(Fresh0(n, pool, agents), es) && NoWakes(es)
    ensures var t := Execute(Fresh0(n, pool, agents), es);
            && Joining(t) && |t.fibers| == pool && t.mesh == EmptyMesh(n) && (forall i :: 2 <= i < pool ==> i in t.free)
  {
    hide Real;
    hide Execute;
    var s := Fresh0(n, pool, agents);
    forall i | 0 <= i < pool ensures i in s.free { assert Upto(pool)[i] == i; }
    var a := HostStarts(s, 1, 1);
    var u := s.(free := s.free - {1});
    var f := Entered(Born(s.fibers[1], true, 1), 1);
    assert Started(s, 1, 1) == Put(u, 1, f, 1, Run(1));
    var b := WaitAndPark(u, 1, f, 1);
    var g := f.(st := Yielded, phase := AtLoad, waits := [Wait(false, false, false)]);
    var s2 := Put(u, 1, g, 1, Idle);
    RunAppend(s, a, b);
    var c := HostStarts(s2, 0, 0);
    RunAppend(s, a + b, c);
    es := a + b + c;
  }

  // ----- filling worker 0's mailbox for worker 1 -----

  /** `t` is `s` after the fiber on worker 0 has spawned `k` more fibers, from index `lo`, that
      were deflected to worker 1. */
  predicate Mailed(s: State, t: State, lo: nat, k: nat) {
    && Joining(s) && Joining(t) && |t.fibers| == |s.fibers| && |t.mesh.mail[0][1]| == |s.mesh.mail[0][1]| + k
    && (forall i :: i in s.free && i >= lo + k ==> i in t.free)
  }

  lemma MailOne(s: State, j: nat) returns (es: seq<Event>)
    requires Joining(s) && j in s.free && 2 <= j < |s.fibers| && !MailboxFull(s.mesh.mail[0][1])
    ensures Real(s, es) && NoWakes(es) && Mailed(s, Execute(s, es), j, 1)
  {
    var t1 := AgentTo(s.(free := s.free - {j}), 0, Spawning(j));
    var u := s.(free := s.free - {j}, fibers := s.fibers[j := Born(s.fibers[j], false, 0)]);
    var t2 := AgentTo(u, 0, Enqueuing(j, 0));
    var t3 := AgentTo(u, 0, Hopping(Single(j), Worker(0), 1));
    var t4 := u.(mesh := SetMail(u.mesh, 0, 1, u.mesh.mail[0][1] + [Single(j)]));
    assert Step(s, Spawn(0, j)) == t1;
    assert Step(t1, Publish(0, false, 0)) == t2 by { assert t1.agents[0 := Enqueuing(j, 0)] == t2.agents; }
    DeflectOne(u, j);
    hide Step;
    PrependReal(t3, Hop(0), []);
    PrependReal(t2, Enqueue(0, Worker(0), false, 1), [Hop(0)]);
    var last := [Enqueue(0, Worker(0), false, 1)] + [Hop(0)];
    PrependReal(t1, Publish(0, false, 0), last);
    PrependReal(s, Spawn(0, j), [Publish(0, false, 0)] + last);
    es := [Spawn(0, j)] + ([Publish(0, false, 0)] + last);
    assert Execute(s, es) == t4;
  }

  lemma DeflectOne(u: State, j: nat)
    requires Joining(u) && j < |u.fibers| && !u.fibers[j].pinned && !MailboxFull(u.mesh.mail[0][1])
    ensures var t2, t3 := AgentTo(u, 0, Enqueuing(j, 0)), AgentTo(u, 0, Hopping(Single(j), Worker(0), 1));
            var e := Enqueue(0, Worker(0), false, 1);
            && Enabled(t2, e) && AdmissibleStep(t2, e) && Step(t2, e) == t3
            && Enabled(t3, Hop(0)) && AdmissibleStep(t3, Hop(0))
            && Step(t3, Hop(0)) == u.(mesh := SetMail(u.mesh, 0, 1, u.mesh.mail[0][1] + [Single(j)]))
  {
    var t2, t3 := AgentTo(u, 0, Enqueuing(j, 0)), AgentTo(u, 0, Hopping(Single(j), Worker(0), 1));
    assert t2.agents[0 := t3.agents[0]] == t3.agents;
    assert t3.agents[0 := Rest] == u.agents;
  }

  lemma {:induction false} MailMany(s: State, lo: nat, k: nat) returns (es: seq<Event>)
    requires Joining(s) && 2 <= lo && lo + k <= |s.fibers| && (forall i :: lo <= i < lo + k ==> i in s.free)
    requires |s.mesh.mail[0][1]| + k <= MAILBOX_CAPACITY - 1
    ensures Real(s, es) && NoWakes(es) && Mailed(s, Execute(s, es), lo, k)
    decreases k
  {
    es := [];
    if k > 0 {
      var first := MailOne(s, lo);
      var s1 := Execute(s, first);
      hide Joining;
      var rest := MailMany(s1, lo + 1, k - 1);
      RunAppend(s, first, rest);
      es := first + rest;
    }
  }

  // ----- ending -----

  /** Fiber 0 ends, wakes its joiner and finds the mailbox full. */
  predicate Refused(s: State) {
    && Shape(s) && 1 < s.mesh.Workers() && |s.agents| > 0 && s.agents[0] == Enqueuing(1, 1) && 1 < |s.fibers|
    && s.workers[0] == Run(0) && s.workers[1] == Idle && s.mesh.locals[0] == [] && s.mesh.locals[1] == []
    && MAILBOX_CAPACITY - 1 == |s.mesh.mail[0][1]| && s.fibers[1].pinned && s.fibers[0].phase == Ending && s.rejected
  }

  lemma EndRefused(s: State) returns (es: seq<Event>)
    requires Joining(s) && |s.mesh.mail[0][1]| == MAILBOX_CAPACITY - 1
    ensures Real(s, es) && NoWakeOf(es, 0) && Refused(Execute(s, es))
  {
    var n := s.mesh.Workers();
    var e := Enqueue(0, Worker(0), false, 0);
    ModSmall(1, n);
    var t1 := s.(fibers := s.fibers[0 := s.fibers[0].(st := Finished, phase := Ending)]);
    assert Step(s, Act(0, Ready)) == t1;
    var t2 := AgentTo(t1.(fibers := t1.fibers[1 := Woken(s.fibers[1], n, 1)]), 0, Enqueuing(1, 1));
    assert Step(t1, Wake(0, 1, 1)) == t2;
    assert Step(t2, e) == t2.(rejected := true) by { assert t2.agents[0 := t2.agents[0]] == t2.agents; }
    hide Step;
    PrependReal(t2, e, []);
    PrependReal(t1, Wake(0, 1, 1), [e]);
    PrependReal(s, Act(0, Ready), [Wake(0, 1, 1)] + [e]);
    es := [Act(0, Ready)] + ([Wake(0, 1, 1)] + [e]);
  }

  /** It yields, storing Notified over Finished, and is queued again. */
  lemma YieldAtEnd(s: State) returns (es: seq<Event>)
    requires Shape(s) && |s.fibers| > 0 && s.workers[0] == Run(0) && s.mesh.locals[0] == []
    requires s.fibers[0].phase == Ending && s.rejected
    ensures Real(s, es) && NoWakes(es)
    ensures var t := Execute(s, es);
            t == Put(s, 0, s.fibers[0].(st := Notified, late := true), 0, Idle).(mesh := SetLocal(s.mesh, 0, [0]))
  {
    hide Step;
    hide Enabled;
    hide AdmissibleStep;
    hide Put;
    hide SetLocal;
    var f := s.fibers[0];
    var g := f.(st := Notified, late := true);
    assert Judged(g) == g;
    PutSelf(s, 0, 0);
    ActPut(s, 0, f, 0, YieldEnding);
    LookPut(s, 0, g, 0);
    RequeuePut(s, 0, g, 0);
    var t;
    es, t := Then(s, [], s, Act(0, YieldEnding));
    hide Real;
    hide Execute;
    es, t := Then(s, es, t, Look(0));
    es, t := Then(s, es, t, Settle(0));
  }

  /** Queued again after its end, with the joiner still in its hands. */
  predicate Retrying(s: State) {
    && Shape(s) && 1 < s.mesh.Workers() && |s.agents| > 0 && s.agents[0] == Enqueuing(1, 1) && 1 < |s.fibers|
    && s.workers[0] == Idle && s.workers[1] == Idle && s.mesh.locals[0] == [0] && s.mesh.locals[1] == []
    && MAILBOX_CAPACITY - 1 == |s.mesh.mail[0][1]| && s.fibers[1].pinned
    && s.fibers[0].phase == Ending && s.fibers[0].st == Notified
  }

  /** Worker 1 takes a chunk out and worker 0 runs fiber 0 again. */
  lemma MakeRoom(s: State) returns (u: State, es: seq<Event>)
    requires Retrying(s)
    ensures Shape(u) && u.agents == s.agents && |u.fibers| == |s.fibers| && u.mesh.Workers() == s.mesh.Workers()
    ensures u.mesh.locals[0] == [] && !MailboxFull(u.mesh.mail[0][1]) && u.fibers[1] == s.fibers[1]
    ensures u.workers[0] == Run(0) && u.fibers[0].phase == Ending && u.fibers[0].st == Notified
    ensures Real(s, es) && NoWakes(es) && Execute(s, es) == u
  {
    var q := s.mesh.mail[0][1];
    var t := WorkerTo(s.(mesh := SetMail(s.mesh, 0, 1, q[1..])), 1, Routing(q[0]));
    assert Step(s, Poll(1, Worker(0))) == t;
    u := Step(t, Dispatch(0));
    assert [0][1..] == [];
    assert u == Put(t.(mesh := SetLocal(t.mesh, 0, [])), 0, Entered(t.fibers[0], 0), 0, Run(0));
    hide Step;
    PrependReal(t, Dispatch(0), []);
    PrependReal(s, Poll(1, Worker(0)), [Dispatch(0)]);
    es := [Poll(1, Worker(0))] + [Dispatch(0)];
  }

  /** The retried push succeeds. */
  lemma PushJoiner(u: State)
    requires Shape(u) && 1 < u.mesh.Workers() && |u.agents| > 0 && u.agents[0] == Enqueuing(1, 1)
    requires 1 < |u.fibers| && u.fibers[1].pinned && u.workers[0].Run? && !MailboxFull(u.mesh.mail[0][1])
    ensures var e := Enqueue(0, Worker(0), false, 0);
            && Enabled(u, e) && AdmissibleStep(u, e)
            && Step(u, e) == AgentTo(u.(mesh := SetMail(u.mesh, 0, 1, u.mesh.mail[0][1] + [Single(1)])), 0, Rest)
  {
    ModSmall(1, u.mesh.Workers());
  }

  /** Fiber 0 runs again, enqueues its joiner and leaves, its state still Notified. */
  lemma RetryAndExit(s: State) returns (es: seq<Event>)
    requires Retrying(s)
    ensures Real(s, es) && NoWakes(es) && EndedAndWoken(Execute(s, es))
  {
    hide Step;
    hide Enabled;
    hide AdmissibleStep;
    hide Valid;
    hide Admissible;
    hide Execute;
    var u, start := MakeRoom(s);
    var v := AgentTo(u.(mesh := SetMail(u.mesh, 0, 1, u.mesh.mail[0][1] + [Single(1)])), 0, Rest);
    PushJoiner(u);
    assert Put(v, 0, v.fibers[0], 0, Run(0)) == v;
    ActPut(v, 0, v.fibers[0], 0, Exit);
    var mid, t := Then(s, start, u, Enqueue(0, Worker(0), false, 0));
    es, t := Then(s, mid, t, Act(0, Exit));
  }

  /** Back-pressure alone resumes an ended fiber: an admissible run from the initial state, on at
      least two workers and with enough contexts to fill one mailbox, that resumes fiber 0 past
      its end and in which nobody wakes fiber 0. */
  lemma BackPressureResumesEnded(n: nat, pool: nat, agents: nat) returns (es: seq<Event>)
    requires 1 < n && 0 < agents && pool > MAILBOX_CAPACITY
    ensures Real(Fresh0(n, pool, agents), es) && NoWakeOf(es, 0)
    ensures var s := Execute(Fresh0(n, pool, agents), es); s.workers[0] == Run(0) && s.fibers[0].phase == Resumed
  {
    hide Valid;
    hide Admissible;
    hide Execute;
    hide EndedAndWoken;
    var s := Fresh0(n, pool, agents);
    var a := Join(n, pool, agents);
    var s1 := Execute(s, a);
    var b := MailMany(s1, 2, MAILBOX_CAPACITY - 1);
    var s2 := Execute(s1, b);
    RunAppend(s, a, b);
    var c := EndRefused(s2);
    var s3 := Execute(s2, c);
    RunAppend(s, a + b, c);
    var d := YieldAtEnd(s3);
    var s4 := Execute(s3, d);
    RunAppend(s, a + b + c, d);
    assert Retrying(s4);
    var e := RetryAndExit(s4);
    RunAppend(s, a + b + c + d, e);
    var f := ResumeEnded(Execute(s4, e));
    RunAppend(s, a + b + c + d + e, f);
    es := a + b + c + d + e + f;
  }
}
