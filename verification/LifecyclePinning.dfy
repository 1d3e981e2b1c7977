/** Pinned fibers stay on their origin worker, although the router never looks at a fiber's
    mode: in a pool of at most LOCAL_QUEUE_HIGH_WATERMARK contexts it never has to deflect.  One
    thing moves them: a wake that carries the core of another worker. */
module LifecyclePinning {
  import opened Arith
  import opened Limits
  import opened Mesh
  import R = Routing
  import opened Lifecycle
  import opened LifecycleOwner
  import opened LifecycleCapacity

  // ----- where a task can be -----

  /** Nobody but `o` will receive task `i` from the mesh. */
  ghost predicate OnlyFor(m: Mesh, i: nat, o: nat)
    requires m.Shape()
  {
    && (forall w :: 0 <= w < m.Workers() && w != o ==> i !in m.locals[w])
    && (forall c: Caller, t: nat :: CallerOk(m, c) && t < m.Workers() && t != o ==> Bag(Inbox(m, c, t))[i] == 0)
    && Bag(m.ware)[i] == 0
  }

  lemma {:induction false} RowCounts(row: seq<seq<Chunk>>, t: nat, i: nat)
    requires t < |row|
    ensures Bag(row[t])[i] <= RowBag(row)[i]
  {
    if t > 0 { RowCounts(row[1..], t - 1, i); }
  }

  lemma {:induction false} MatrixCounts(rows: seq<seq<seq<Chunk>>>, p: nat, i: nat)
    requires p < |rows|
    ensures RowBag(rows[p])[i] <= MatrixBag(rows)[i]
  {
    if p > 0 { MatrixCounts(rows[1..], p - 1, i); }
  }

  lemma {:induction false} LocalCounts(qs: seq<seq<Task>>, w: nat, i: nat)
    requires w < |qs| && LocalBag(qs)[i] == 0
    ensures i !in qs[w]
  {
    if w > 0 {
      LocalCounts(qs[1..], w - 1, i);
    } else {
      assert i in multiset(qs[0]) <==> i in qs[0];
    }
  }

  lemma AbsentIsOnlyFor(m: Mesh, i: nat, o: nat)
    requires m.Shape() && Tasks(m)[i] == 0
    ensures OnlyFor(m, i, o)
  {
    forall w | 0 <= w < m.Workers() ensures i !in m.locals[w] { LocalCounts(m.locals, w, i); }
    forall c: Caller, t: nat | CallerOk(m, c) && t < m.Workers() ensures Bag(Inbox(m, c, t))[i] == 0 {
      match c
      case Worker(p) =>
        RowCounts(m.mail[p], t, i);
        MatrixCounts(m.mail, p, i);
      case Host => RowCounts(m.ext, t, i);
    }
  }

  lemma SetInboxOnlyFor(m: Mesh, c: Caller, t: nat, q: seq<Chunk>, i: nat, o: nat)
    requires m.Shape() && OnlyFor(m, i, o) && CallerOk(m, c) && t < m.Workers()
    requires t == o || Bag(q)[i] == 0
    ensures OnlyFor(SetInbox(m, c, t, q), i, o)
  {
    hide Bag;
    var m' := SetInbox(m, c, t, q);
    OtherInbox(m, c, t, q, Host, 0);
    forall d: Caller, u: nat | CallerOk(m', d) && u < m'.Workers() && u != o ensures Bag(Inbox(m', d, u))[i] == 0 {
      OtherInbox(m, c, t, q, d, u);
      assert Bag(Inbox(m, d, u))[i] == 0;
    }
  }

  lemma PostOnlyFor(m: Mesh, c: Caller, t: nat, chunk: Chunk, i: nat, o: nat)
    requires m.Shape() && OnlyFor(m, i, o) && CallerOk(m, c) && t < m.Workers()
    requires t == o || multiset(chunk.tasks)[i] == 0
    ensures OnlyFor(Post(m, c, t, chunk).0, i, o)
  {
    hide Bag;
    var q := Inbox(m, c, t);
    BagSnoc(q, chunk);
    if t != o { assert Bag(Inbox(m, c, t))[i] == 0; }
    SetInboxOnlyFor(m, c, t, q + [chunk], i, o);
  }

  lemma SetLocalOnlyFor(m: Mesh, w: nat, q: seq<Task>, i: nat, o: nat)
    requires m.Shape() && OnlyFor(m, i, o) && w < m.Workers() && (w == o || i !in q)
    ensures OnlyFor(SetLocal(m, w, q), i, o)
  {
    hide Bag;
    var m' := SetLocal(m, w, q);
    forall d: Caller, u: nat | CallerOk(m', d) && u < m'.Workers() && u != o ensures Bag(Inbox(m', d, u))[i] == 0 {
      assert Inbox(m', d, u) == Inbox(m, d, u);
    }
  }

  lemma SetWareOnlyFor(m: Mesh, q: seq<Chunk>, i: nat, o: nat)
    requires m.Shape() && OnlyFor(m, i, o) && Bag(q)[i] == 0
    ensures OnlyFor(m.(ware := q), i, o)
  {
    hide Bag;
    var m' := m.(ware := q);
    forall d: Caller, u: nat | CallerOk(m', d) && u < m'.Workers() && u != o ensures Bag(Inbox(m', d, u))[i] == 0 {
      assert Inbox(m', d, u) == Inbox(m, d, u);
    }
  }

  // ----- the invariant -----

  /** Workers other than `o` do not hold `i`; `o` holds it only to put it in its own queue or
      to run it. */
  predicate HandHome(pc: WorkerPc, w: nat, i: nat, o: nat) {
    WorkerHas(pc, i) > 0 ==> w == o && !pc.Stowing? && !pc.Parking?
  }

  predicate AgentHome(pc: AgentPc, i: nat, o: nat, n: nat)
    requires 0 < n
  {
    AgentHas(pc, i) > 0 ==> pc.Spawning? || (pc.Enqueuing? && pc.core % n == o)
  }

  /** Fiber `i` has run only on its origin and can only run there next: it is queued, held and
      enqueued for that worker alone, and is not in the warehouse. */
  ghost predicate AtHome(s: State, i: nat)
    requires Shape(s) && i < |s.fibers|
  {
    var o := s.fibers[i].origin;
    && o < s.mesh.Workers()
    && s.fibers[i].ran <= {o}
    && OnlyFor(s.mesh, i, o)
    && (forall w :: 0 <= w < |s.workers| ==> HandHome(s.workers[w], w, i, o))
    && (forall a :: 0 <= a < |s.agents| ==> AgentHome(s.agents[a], i, o, s.mesh.Workers()))
  }

  ghost predicate PinnedHome(s: State) {
    Shape(s) && forall i :: 0 <= i < |s.fibers| && s.fibers[i].pinned ==> AtHome(s, i)
  }

  /** A pinned fiber that no wake has sent elsewhere. */
  predicate Homed(f: Fiber) { f.pinned && !f.strayed }

  ghost predicate PinInv(s: State) {
    && Shape(s) && Owned(s) && |s.fibers| <= LOCAL_QUEUE_HIGH_WATERMARK
    && (forall i :: 0 <= i < |s.fibers| && Homed(s.fibers[i]) ==> AtHome(s, i))
  }

  // ----- agents -----

  lemma AgentPushHome(s: State, a: nat, r: (Mesh, bool), retry: AgentPc, i: nat)
    requires Shape(s) && i < |s.fibers| && AtHome(s, i) && a < |s.agents|
    requires r.0.Shape() && r.0.Workers() == s.mesh.Workers()
    requires OnlyFor(r.0, i, s.fibers[i].origin) && AgentHome(retry, i, s.fibers[i].origin, s.mesh.Workers())
    ensures AtHome(AgentPush(s, a, r, retry), i) && AtHome(AgentTo(s, a, retry), i)
  {
    hide OnlyFor;
    hide HandHome;
  }

  lemma EnqueueHome(s: State, a: nat, caller: Caller, busy: bool, target: nat, i: nat)
    requires PinInv(s) && AgentEnabled(s, Enqueue(a, caller, busy, target)) && i < |s.fibers| && Homed(s.fibers[i])
    ensures AtHome(StepAgent(s, Enqueue(a, caller, busy, target)), i)
  {
    hide Owned;
    hide OnlyFor;
    hide AgentPush;
    var Enqueuing(j, core) := s.agents[a];
    var n, o := s.mesh.Workers(), s.fibers[i].origin;
    assert AtHome(s, i);
    assert AgentHome(s.agents[a], i, o, s.mesh.Workers());
    if s.fibers[j].pinned {
      var t := core % n;
      LocalGains(s.mesh, t, j, i, o);
      PostOnlyFor(s.mesh, caller, t, Single(j), i, o);
      AgentPushHome(s, a, PushLocal(s.mesh, t, j), s.agents[a], i);
      AgentPushHome(s, a, Post(s.mesh, caller, t, Single(j)), s.agents[a], i);
    } else {
      LocalGains(s.mesh, target, j, i, o);
      AgentPushHome(s, a, PushLocal(s.mesh, target, j), Diverting(Chunk([j], HOPS_EXHAUSTED)), i);
      var hop := Hopping(Single(j), caller, R.OffOwnColumn(n, caller, target));
      AgentPushHome(s, a, PushLocal(s.mesh, target, j), hop, i);
    }
  }

  lemma LocalGains(m: Mesh, w: nat, task: Task, i: nat, o: nat)
    requires m.Shape() && OnlyFor(m, i, o) && w < m.Workers() && (w == o || task != i)
    ensures OnlyFor(PushLocal(m, w, task).0, i, o)
  {
    hide Bag;
    SetLocalOnlyFor(m, w, m.locals[w] + [task], i, o);
  }

  lemma HopHome(s: State, a: nat, i: nat)
    requires PinInv(s) && AgentEnabled(s, Hop(a)) && i < |s.fibers| && Homed(s.fibers[i])
    ensures AtHome(StepAgent(s, Hop(a)), i)
  {
    hide Owned;
    hide OnlyFor;
    hide AgentPush;
    var Hopping(chunk, caller, target) := s.agents[a];
    var n, o := s.mesh.Workers(), s.fibers[i].origin;
    assert AtHome(s, i);
    assert AgentHome(s.agents[a], i, o, s.mesh.Workers());
    PostOnlyFor(s.mesh, caller, target, chunk, i, o);
    var next := chunk.(hops := chunk.hops + 1);
    AgentPushHome(s, a, Post(s.mesh, caller, target, chunk), Diverting(chunk), i);
    var hop := Hopping(next, caller, R.HopTarget(n, caller, next.hops));
    AgentPushHome(s, a, Post(s.mesh, caller, target, chunk), hop, i);
  }

  lemma DivertHome(s: State, a: nat, i: nat)
    requires PinInv(s) && AgentEnabled(s, Divert(a)) && i < |s.fibers| && Homed(s.fibers[i])
    ensures AtHome(StepAgent(s, Divert(a)), i)
  {
    hide Owned;
    hide Bag;
    var o := s.fibers[i].origin;
    assert AtHome(s, i);
    assert AgentHome(s.agents[a], i, o, s.mesh.Workers());
    BagSnoc(s.mesh.ware, s.agents[a].chunk);
    SetWareOnlyFor(s.mesh, s.mesh.ware + [s.agents[a].chunk], i, o);
    hide OnlyFor;
  }

  /** A newly published fiber is in its spawner's hands and nowhere else. */
  lemma PublishHome(s: State, a: nat, pin: bool, home: nat, i: nat)
    requires PinInv(s) && AgentEnabled(s, Publish(a, pin, home)) && i < |s.fibers|
    requires Homed(StepAgent(s, Publish(a, pin, home)).fibers[i])
    ensures AtHome(StepAgent(s, Publish(a, pin, home)), i)
  {
    hide Places;
    hide Tasks;
    hide OnlyFor;
    var j := s.agents[a].i;
    AgentHolds(s, a, j);
    ModSmall(home, s.mesh.Workers());
    AbsentIsOnlyFor(s.mesh, j, home);
    if i != j { assert AtHome(s, i); }
  }

  lemma WakeHome(s: State, e: Event, i: nat)
    requires PinInv(s) && AgentEnabled(s, e) && (e.Wake? || e.Spawn?) && i < |s.fibers|
    requires Homed(StepAgent(s, e).fibers[i])
    ensures AtHome(StepAgent(s, e), i)
  {
    hide Owned;
    hide OnlyFor;
    hide HandHome;
    assert AtHome(s, i);
  }

  lemma AgentKeepsPins(s: State, e: Event, i: nat)
    requires Shape(s) && AgentEnabled(s, e) && !e.Publish? && i < |s.fibers|
    ensures Homed(StepAgent(s, e).fibers[i]) ==> Homed(s.fibers[i])
  {
    hide Post;
    hide PushLocal;
  }

  lemma AgentKeepsHome(s: State, e: Event, i: nat)
    requires PinInv(s) && AgentEnabled(s, e) && i < |s.fibers| && Homed(StepAgent(s, e).fibers[i])
    ensures AtHome(StepAgent(s, e), i)
  {
    hide AtHome;
    hide StepAgent;
    if e.Publish? {
      PublishHome(s, e.a, e.pin, e.home, i);
    } else {
      AgentKeepsPins(s, e, i);
      match e
      case Enqueue(a, caller, busy, target) => EnqueueHome(s, a, caller, busy, target, i);
      case Hop(a) => HopHome(s, a, i);
      case Divert(a) => DivertHome(s, a, i);
      case _ => WakeHome(s, e, i);
    }
  }

  // ----- workers -----

  lemma WorkerToHome(s: State, w: nat, m: Mesh, pc: WorkerPc, i: nat)
    requires Shape(s) && i < |s.fibers| && AtHome(s, i) && w < |s.workers|
    requires m.Shape() && m.Workers() == s.mesh.Workers() && OnlyFor(m, i, s.fibers[i].origin)
    requires HandHome(pc, w, i, s.fibers[i].origin)
    ensures AtHome(WorkerTo(s.(mesh := m), w, pc), i)
    ensures AtHome(WorkerTo(s.(mesh := m, parked := true), w, pc), i)
    ensures AtHome(WorkerTo(s.(mesh := m, rejected := true), w, pc), i)
    ensures forall d :: AtHome(WorkerTo(s.(mesh := m, dropped := d), w, pc), i)
    ensures forall d :: AtHome(WorkerTo(s.(mesh := m, rejected := true, dropped := d), w, pc), i)
  {
    hide OnlyFor;
    hide HandHome;
    hide AgentHome;
  }

  lemma PollHome(s: State, w: nat, from: Caller, i: nat)
    requires PinInv(s) && MoverEnabled(s, Poll(w, from)) && i < |s.fibers| && Homed(s.fibers[i])
    ensures AtHome(StepMover(s, Poll(w, from)), i)
  {
    hide Owned;
    hide Bag;
    var o := s.fibers[i].origin;
    var q := Inbox(s.mesh, from, w);
    assert AtHome(s, i);
    BagHead(q);
    if w != o { assert Bag(Inbox(s.mesh, from, w))[i] == 0; }
    SetInboxOnlyFor(s.mesh, from, w, q[1..], i, o);
    WorkerToHome(s, w, SetInbox(s.mesh, from, w, q[1..]), Routing(q[0]), i);
  }

  lemma DrainHome(s: State, w: nat, i: nat)
    requires PinInv(s) && MoverEnabled(s, Drain(w)) && i < |s.fibers| && Homed(s.fibers[i])
    ensures AtHome(StepMover(s, Drain(w)), i)
  {
    hide Owned;
    hide Bag;
    assert AtHome(s, i);
    BagHead(s.mesh.ware);
    SetWareOnlyFor(s.mesh, s.mesh.ware[1..], i, s.fibers[i].origin);
    WorkerToHome(s, w, s.mesh.(ware := s.mesh.ware[1..]), Stowing(s.mesh.ware[0]), i);
  }

  /** A worker's batch goes into its own queue. */
  lemma BatchHome(s: State, w: nat, chunk: Chunk, i: nat)
    requires Shape(s) && i < |s.fibers| && AtHome(s, i) && w < |s.workers|
    requires multiset(chunk.tasks)[i] > 0 ==> w == s.fibers[i].origin
    ensures AtHome(WorkerTo(s.(mesh := PushBatch(s.mesh, w, chunk)), w, Idle), i)
  {
    hide Bag;
    assert i in chunk.tasks ==> i in multiset(chunk.tasks);
    SetLocalOnlyFor(s.mesh, w, s.mesh.locals[w] + chunk.tasks, i, s.fibers[i].origin);
    WorkerToHome(s, w, PushBatch(s.mesh, w, chunk), Idle, i);
  }

  /** The router always finds room, so it never gets to deflect or park. */
  lemma RouterHasRoom(s: State, w: nat)
    requires Owned(s) && |s.fibers| <= LOCAL_QUEUE_HIGH_WATERMARK && MoverEnabled(s, Route(w))
    ensures R.SpaceOk(s.mesh, w, s.workers[w].chunk)
  {
    hide Places;
    hide Tasks;
    WorkerRoom(s, w, multiset(s.workers[w].chunk.tasks));
    MeshHoldsLocal(s.mesh, w);
  }

  lemma RouteHome(s: State, w: nat, i: nat)
    requires PinInv(s) && MoverEnabled(s, Route(w)) && i < |s.fibers| && Homed(s.fibers[i])
    ensures AtHome(DoRoute(s, w), i)
  {
    hide Owned;
    hide OnlyFor;
    assert AtHome(s, i);
    assert HandHome(s.workers[w], w, i, s.fibers[i].origin);
    RouterHasRoom(s, w);
    BatchHome(s, w, s.workers[w].chunk, i);
  }

  lemma ParkHome(s: State, w: nat, i: nat)
    requires PinInv(s) && MoverEnabled(s, ParkChunk(w)) && i < |s.fibers| && Homed(s.fibers[i])
    ensures AtHome(StepMover(s, ParkChunk(w)), i)
  {
    hide Owned;
    hide Bag;
    assert AtHome(s, i);
    assert HandHome(s.workers[w], w, i, s.fibers[i].origin);
    BagSnoc(s.mesh.ware, s.workers[w].chunk);
    SetWareOnlyFor(s.mesh, s.mesh.ware + [s.workers[w].chunk], i, s.fibers[i].origin);
    WorkerToHome(s, w, Park(s.mesh, s.workers[w].chunk).0, Idle, i);
  }

  lemma MoverKeepsHome(s: State, e: Event, i: nat)
    requires PinInv(s) && MoverEnabled(s, e) && i < |s.fibers| && Homed(s.fibers[i])
    ensures AtHome(StepMover(s, e), i)
  {
    hide Owned;
    hide OnlyFor;
    match e
    case Poll(w, from) => PollHome(s, w, from, i);
    case Drain(w) => DrainHome(s, w, i);
    case Route(w) => RouteHome(s, w, i);
    case Stow(w) =>
      assert AtHome(s, i);
      assert HandHome(s.workers[w], w, i, s.fibers[i].origin);
      BatchHome(s, w, s.workers[w].chunk, i);
    case ParkChunk(w) => ParkHome(s, w, i);
  }

  lemma DispatchHome(s: State, w: nat, i: nat)
    requires PinInv(s) && RunnerEnabled(s, Dispatch(w)) && i < |s.fibers| && Homed(s.fibers[i])
    ensures AtHome(StepRunner(s, Dispatch(w)), i)
  {
    hide Owned;
    hide Bag;
    var j, o := s.mesh.locals[w][0], s.fibers[i].origin;
    assert AtHome(s, i);
    assert j in s.mesh.locals[w];
    SetLocalOnlyFor(s.mesh, w, s.mesh.locals[w][1..], i, o);
    hide OnlyFor;
  }

  lemma SettleHome(s: State, w: nat, i: nat)
    requires PinInv(s) && RunnerEnabled(s, Settle(w)) && i < |s.fibers| && Homed(s.fibers[i])
    ensures AtHome(StepRunner(s, Settle(w)), i)
  {
    hide Owned;
    hide OnlyFor;
    var Settling(j, seen) := s.workers[w];
    var o := s.fibers[i].origin;
    assert AtHome(s, i);
    assert HandHome(s.workers[w], w, i, o);
    LocalGains(s.mesh, w, j, i, o);
    WorkerToHome(s, w, PushLocal(s.mesh, w, j).0, Idle, i);
    WorkerToHome(s, w, s.mesh, Resetting(j), i);
    WorkerToHome(s, w, s.mesh, Idle, i);
  }

  lemma HandleHome(s: State, s': State, w: nat, j: nat, i: nat)
    requires PinInv(s) && Handles(s, s', w, j) && i < |s.fibers| && Homed(s.fibers[i])
    requires s'.fibers[j].origin == s.fibers[j].origin && s'.fibers[j].ran == s.fibers[j].ran
    ensures AtHome(s', i)
  {
    hide Owned;
    hide OnlyFor;
    hide AgentHome;
    assert AtHome(s, i);
    assert HandHome(s.workers[w], w, i, s.fibers[i].origin);
  }

  lemma ActKeepsHome(s: State, w: nat, act: FiberAct, i: nat)
    requires PinInv(s) && RunnerEnabled(s, Act(w, act)) && i < |s.fibers| && Homed(s.fibers[i])
    ensures AtHome(StepRunner(s, Act(w, act)), i)
  {
    hide PinnedHome;
    hide Owned;
    hide Handles;
    hide AtHome;
    ActHandles(s, w, act);
    HandleHome(s, StepRunner(s, Act(w, act)), w, s.workers[w].i, i);
  }

  lemma LookKeepsHome(s: State, e: Event, i: nat)
    requires PinInv(s) && RunnerEnabled(s, e) && (e.Look? || e.TryPark? || e.Reset? || e.Release?)
    requires i < |s.fibers| && Homed(s.fibers[i])
    ensures AtHome(StepRunner(s, e), i)
  {
    hide Places;
    hide Handles;
    hide AtHome;
    hide PinnedHome;
    var j := s.workers[e.w].i;
    WorkerHolds(s, e.w, j);
    LookKeepsIdentity(s, e, j);
    if e.Look? || e.TryPark? { LookHandles(s, e); } else { FreeingHandles(s, e); }
    hide StepRunner;
    HandleHome(s, StepRunner(s, e), e.w, j, i);
  }

  lemma LookKeepsIdentity(s: State, e: Event, j: nat)
    requires Shape(s) && RunnerEnabled(s, e) && (e.Look? || e.TryPark? || e.Reset? || e.Release?)
    requires j < |s.fibers| == |StepRunner(s, e).fibers|
    ensures var g := StepRunner(s, e).fibers[j]; g.origin == s.fibers[j].origin && g.ran == s.fibers[j].ran
  {
  }

  /** What a fiber is, it stays while it runs. */
  lemma ActKeepsIdentity(f: Fiber, act: FiberAct)
    ensures var g := ActOn(f, act).0;
            g.pinned == f.pinned && g.origin == f.origin && g.ran == f.ran && g.strayed == f.strayed
  {
  }

  lemma RunnerKeepsPins(s: State, e: Event, i: nat)
    requires Shape(s) && RunnerEnabled(s, e) && i < |s.fibers|
    ensures Homed(StepRunner(s, e).fibers[i]) == Homed(s.fibers[i])
  {
    hide PushLocal;
    hide SetLocal;
    hide ActOn;
    match e
    case Act(w, act) => ActKeepsIdentity(s.fibers[s.workers[w].i], act);
    case Settle(w) => assert DoSettle(s, w).fibers == s.fibers;
    case _ =>
  }

  lemma RunnerKeepsHome(s: State, e: Event, i: nat)
    requires PinInv(s) && RunnerEnabled(s, e) && i < |s.fibers| && Homed(StepRunner(s, e).fibers[i])
    ensures AtHome(StepRunner(s, e), i)
  {
    hide AtHome;
    hide StepRunner;
    RunnerKeepsPins(s, e, i);
    match e
    case Dispatch(w) => DispatchHome(s, w, i);
    case Settle(w) => SettleHome(s, w, i);
    case Act(w, act) => ActKeepsHome(s, w, act, i);
    case _ => LookKeepsHome(s, e, i);
  }

  lemma StepKeepsPinInv(s: State, e: Event)
    requires PinInv(s) && Enabled(s, e)
    ensures PinInv(Step(s, e))
  {
    hide Owned;
    hide AtHome;
    StepKeepsOwned(s, e);
    forall i | 0 <= i < |s.fibers| && Homed(Step(s, e).fibers[i]) ensures AtHome(Step(s, e), i) {
      if AgentEnabled(s, e) {
        AgentKeepsHome(s, e, i);
      } else if MoverEnabled(s, e) {
        MoverCarries(s, e, i);
        MoverKeepsHome(s, e, i);
      } else {
        RunnerKeepsHome(s, e, i);
      }
    }
  }

  lemma {:induction false} RunKeepsPinInv(s: State, es: seq<Event>)
    requires PinInv(s) && Valid(s, es)
    ensures PinInv(Execute(s, es))
    decreases |es|
  {
    hide PinInv;
    if es != [] {
      StepKeepsPinInv(s, es[0]);
      RunKeepsPinInv(Step(s, es[0]), es[1..]);
    }
  }
}
