/** Wakes that carry the wrong core.  A handle keeps the core its fiber was spawned on and a
    waiter entry the core its fiber waited on; the context may since have been given to another
    fiber, and nothing compares the two.  Such a wake, and in a pool up to the watermark nothing
    else, takes a pinned fiber away from its origin. */
module LifecycleStray {
  import opened Arith
  import opened Limits
  import opened Mesh
  import R = Routing
  import opened FiberStatus
  import opened Lifecycle
  import opened LifecycleOwner
  import opened LifecycleCapacity
  import opened LifecyclePinning
  import opened LifecycleEnd

  // ----- where a fiber that has left home shows -----

  datatype Clue = Ran | Held(a: nat) | Queued(w: nat) | Mailed(c: Caller, t: nat) | Taken(w: nat)

  /** Fiber `i` has run away from its origin, or is held, queued, mailed or taken out of a
      mailbox on its way to another worker. */
  predicate Shows(s: State, i: nat, clue: Clue)
    requires Shape(s) && i < |s.fibers|
  {
    var o, n := s.fibers[i].origin, s.mesh.Workers();
    match clue
    case Ran => !(s.fibers[i].ran <= {o})
    case Held(a) => a < |s.agents| && s.agents[a].Enqueuing? && s.agents[a].i == i && s.agents[a].core % n != o
    case Queued(w) => w < n && w != o && i in s.mesh.locals[w]
    case Mailed(c, t) => CallerOk(s.mesh, c) && t < n && t != o && Bag(Inbox(s.mesh, c, t))[i] > 0
    case Taken(w) => w < n && w != o && s.workers[w].Routing? && multiset(s.workers[w].chunk.tasks)[i] > 0
  }

  lemma ClueNotHome(s: State, i: nat, clue: Clue)
    requires Shape(s) && i < |s.fibers| && Shows(s, i, clue)
    ensures !AtHome(s, i)
  {
    hide Bag;
    var o := s.fibers[i].origin;
    match clue
    case Ran =>
    case Held(a) => assert !AgentHome(s.agents[a], i, o, s.mesh.Workers());
    case Queued(w) => assert !OnlyFor(s.mesh, i, o);
    case Mailed(c, t) => assert !OnlyFor(s.mesh, i, o);
    case Taken(w) => assert !HandHome(s.workers[w], w, i, o);
  }

  // ----- the mesh only gains -----

  /** Every queue and mailbox that has task `i` still has it. */
  ghost predicate Keeps(m: Mesh, m': Mesh, i: nat)
    requires m.Shape() && m'.Shape()
  {
    && m'.Workers() == m.Workers()
    && (forall w :: 0 <= w < m.Workers() && i in m.locals[w] ==> i in m'.locals[w])
    && (forall c: Caller, t: nat ::
          CallerOk(m, c) && t < m.Workers() ==> Bag(Inbox(m, c, t))[i] <= Bag(Inbox(m', c, t))[i])
  }

  lemma PostKeeps(m: Mesh, c: Caller, t: nat, chunk: Chunk, i: nat)
    requires m.Shape() && CallerOk(m, c) && t < m.Workers()
    ensures Keeps(m, Post(m, c, t, chunk).0, i)
    ensures Post(m, c, t, chunk).1 ==> Bag(Inbox(Post(m, c, t, chunk).0, c, t))[i] >= multiset(chunk.tasks)[i]
  {
    hide Bag;
    var q := Inbox(m, c, t) + [chunk];
    BagSnoc(Inbox(m, c, t), chunk);
    OtherInbox(m, c, t, q, c, t);
    forall d: Caller, u: nat | CallerOk(m, d) && u < m.Workers()
      ensures Bag(Inbox(m, d, u))[i] <= Bag(Inbox(SetInbox(m, c, t, q), d, u))[i]
    {
      OtherInbox(m, c, t, q, d, u);
    }
  }

  lemma SetLocalKeeps(m: Mesh, w: nat, q: seq<Task>, i: nat)
    requires m.Shape() && w < m.Workers() && (i in m.locals[w] ==> i in q)
    ensures Keeps(m, SetLocal(m, w, q), i)
  {
    hide Bag;
    var m' := SetLocal(m, w, q);
    forall d: Caller, u: nat | CallerOk(m, d) && u < m.Workers()
      ensures Bag(Inbox(m, d, u))[i] <= Bag(Inbox(m', d, u))[i]
    {
      assert Inbox(m', d, u) == Inbox(m, d, u);
    }
  }

  lemma SameKeeps(m: Mesh, i: nat)
    requires m.Shape()
    ensures Keeps(m, m, i)
  {
    hide Bag;
  }

  lemma WareKeeps(m: Mesh, q: seq<Chunk>, i: nat)
    requires m.Shape()
    ensures Keeps(m, m.(ware := q), i)
  {
    hide Bag;
    var m' := m.(ware := q);
    forall d: Caller, u: nat | CallerOk(m, d) && u < m.Workers()
      ensures Bag(Inbox(m, d, u))[i] <= Bag(Inbox(m', d, u))[i]
    {
      assert Inbox(m', d, u) == Inbox(m, d, u);
    }
  }

  /** Fiber `i` is the same incarnation. */
  predicate SameFiber(s: State, s': State, i: nat) {
    && i < |s.fibers| == |s'.fibers|
    && s'.fibers[i].origin == s.fibers[i].origin
    && s.fibers[i].ran <= s'.fibers[i].ran
  }

  /** A clue survives a step that only adds to the mesh and touches neither its holder. */
  lemma ClueStays(s: State, s': State, i: nat, clue: Clue)
    requires Shape(s) && Shape(s') && SameFiber(s, s', i) && Shows(s, i, clue) && Keeps(s.mesh, s'.mesh, i)
    requires clue.Held? ==> clue.a < |s'.agents| && s'.agents[clue.a] == s.agents[clue.a]
    requires clue.Taken? ==> s'.workers[clue.w] == s.workers[clue.w]
    ensures Shows(s', i, clue)
  {
    hide Bag;
  }

  // ----- agents -----

  lemma PushMoves(s: State, a: nat, r: (Mesh, bool), retry: AgentPc, i: nat, clue: Clue)
    requires Shape(s) && a < |s.agents| && i < |s.fibers| && Shows(s, i, clue) && clue != Held(a)
    requires r.0.Shape() && Keeps(s.mesh, r.0, i)
    ensures Shows(AgentPush(s, a, r, retry), i, clue) && Shows(AgentTo(s, a, retry), i, clue)
  {
    assert clue.Held? ==> clue.a < |s.agents|;
    SameKeeps(s.mesh, i);
    assert r.0.Workers() == s.mesh.Workers();
    hide Keeps;
    hide Shows;
    ClueStays(s, AgentPush(s, a, r, retry), i, clue);
    ClueStays(s, AgentTo(s, a, retry), i, clue);
  }

  /** The holder of a strayed fiber pushes it towards the core it was given. */
  lemma PinnedPush(s: State, a: nat, caller: Caller, busy: bool, target: nat, i: nat) returns (r: Clue)
    requires Shape(s) && AgentEnabled(s, Enqueue(a, caller, busy, target))
    requires i < |s.fibers| && s.fibers[i].pinned && Shows(s, i, Held(a))
    ensures Shows(DoEnqueue(s, a, caller, busy, target), i, r)
  {
    hide Bag;
    hide Keeps;
    var t := s.agents[a].core % s.mesh.Workers();
    r := Held(a);
    if caller == Worker(t) {
      if PushLocal(s.mesh, t, i).1 { r := Queued(t); }
    } else {
      PostKeeps(s.mesh, caller, t, Single(i), i);
      if Post(s.mesh, caller, t, Single(i)).1 { r := Mailed(caller, t); }
    }
  }

  lemma OtherPush(s: State, a: nat, caller: Caller, busy: bool, target: nat, i: nat, clue: Clue)
    requires Shape(s) && AgentEnabled(s, Enqueue(a, caller, busy, target))
    requires i < |s.fibers| && Shows(s, i, clue) && clue != Held(a)
    ensures Shows(DoEnqueue(s, a, caller, busy, target), i, clue)
  {
    hide Bag;
    hide Keeps;
    hide Shows;
    hide AgentPush;
    var Enqueuing(j, core) := s.agents[a];
    var t := core % s.mesh.Workers();
    PostKeeps(s.mesh, caller, t, Single(j), i);
    PushMoves(s, a, Post(s.mesh, caller, t, Single(j)), s.agents[a], i, clue);
    LocalKeeps(s.mesh, t, j, i);
    PushMoves(s, a, PushLocal(s.mesh, t, j), s.agents[a], i, clue);
    LocalKeeps(s.mesh, target, j, i);
    var hop := Hopping(Single(j), caller, R.OffOwnColumn(s.mesh.Workers(), caller, target));
    PushMoves(s, a, PushLocal(s.mesh, target, j), hop, i, clue);
    PushMoves(s, a, PushLocal(s.mesh, target, j), Diverting(Chunk([j], HOPS_EXHAUSTED)), i, clue);
  }

  lemma LocalKeeps(m: Mesh, w: nat, task: Task, i: nat)
    requires m.Shape() && w < m.Workers()
    ensures Keeps(m, PushLocal(m, w, task).0, i)
  {
    SetLocalKeeps(m, w, m.locals[w] + [task], i);
    SameKeeps(m, i);
    hide Keeps;
  }

  lemma HopMoves(s: State, a: nat, i: nat, clue: Clue)
    requires Shape(s) && AgentEnabled(s, Hop(a)) && i < |s.fibers| && Shows(s, i, clue)
    ensures Shows(DoHop(s, a), i, clue)
  {
    hide Bag;
    hide Keeps;
    hide AgentPush;
    var Hopping(chunk, caller, target) := s.agents[a];
    assert clue != Held(a);
    hide Shows;
    var next := chunk.(hops := chunk.hops + 1);
    var hop := Hopping(next, caller, R.HopTarget(s.mesh.Workers(), caller, next.hops));
    PostKeeps(s.mesh, caller, target, chunk, i);
    PushMoves(s, a, Post(s.mesh, caller, target, chunk), Diverting(chunk), i, clue);
    PushMoves(s, a, Post(s.mesh, caller, target, chunk), hop, i, clue);
  }

  lemma AgentMoves(s: State, e: Event, i: nat, clue: Clue) returns (r: Clue)
    requires Shape(s) && AgentEnabled(s, e) && i < |s.fibers| && s.fibers[i].pinned && Shows(s, i, clue)
    requires e.Publish? ==> s.agents[e.a].i != i
    ensures Shows(StepAgent(s, e), i, r)
  {
    hide Bag;
    hide Keeps;
    r := clue;
    if e.Enqueue? {
      hide DoEnqueue;
      if clue == Held(e.a) {
        r := PinnedPush(s, e.a, e.caller, e.busy, e.target, i);
      } else {
        OtherPush(s, e.a, e.caller, e.busy, e.target, i, clue);
      }
    } else if e.Hop? {
      HopMoves(s, e.a, i, clue);
    } else {
      SameKeeps(s.mesh, i);
      if e.Divert? { WareKeeps(s.mesh, s.mesh.ware + [s.agents[e.a].chunk], i); }
      ClueStays(s, StepAgent(s, e), i, clue);
    }
  }

  // ----- workers -----

  lemma PollMoves(s: State, w: nat, from: Caller, i: nat, clue: Clue) returns (r: Clue)
    requires Shape(s) && MoverEnabled(s, Poll(w, from)) && i < |s.fibers| && Shows(s, i, clue)
    ensures Shows(StepMover(s, Poll(w, from)), i, r)
  {
    hide Bag;
    var q := Inbox(s.mesh, from, w);
    BagHead(q);
    r := clue;
    if clue == Mailed(from, w) {
      OtherInbox(s.mesh, from, w, q[1..], from, w);
      if multiset(q[0].tasks)[i] > 0 { r := Taken(w); }
    } else if clue.Mailed? {
      OtherInbox(s.mesh, from, w, q[1..], clue.c, clue.t);
    } else {
      OtherInbox(s.mesh, from, w, q[1..], from, w);
    }
  }

  lemma BatchMoves(s: State, w: nat, chunk: Chunk, i: nat, clue: Clue) returns (r: Clue)
    requires Shape(s) && w < |s.workers| && i < |s.fibers| && Shows(s, i, clue)
    requires clue == Taken(w) ==> s.workers[w] == Routing(chunk)
    ensures Shows(WorkerTo(s.(mesh := PushBatch(s.mesh, w, chunk)), w, Idle), i, r)
  {
    hide Bag;
    var s' := WorkerTo(s.(mesh := PushBatch(s.mesh, w, chunk)), w, Idle);
    r := clue;
    if clue == Taken(w) {
      assert i in multiset(chunk.tasks) <==> i in chunk.tasks;
      r := Queued(w);
    } else {
      SetLocalKeeps(s.mesh, w, s.mesh.locals[w] + chunk.tasks, i);
      ClueStays(s, s', i, clue);
    }
  }

  lemma MoverMoves(s: State, e: Event, i: nat, clue: Clue) returns (r: Clue)
    requires Owned(s) && |s.fibers| <= LOCAL_QUEUE_HIGH_WATERMARK && MoverEnabled(s, e)
    requires i < |s.fibers| && Shows(s, i, clue)
    ensures Shows(StepMover(s, e), i, r)
  {
    match e
    case Poll(w, from) => r := PollMoves(s, w, from, i, clue);
    case Route(w) =>
      RouterHasRoom(s, w);
      hide Shows;
      r := BatchMoves(s, w, s.workers[w].chunk, i, clue);
    case Stow(w) => r := BatchMoves(s, w, s.workers[w].chunk, i, clue);
    case Drain(w) =>
      hide Bag;
      r := clue;
      WareKeeps(s.mesh, s.mesh.ware[1..], i);
      ClueStays(s, StepMover(s, e), i, clue);
    case ParkChunk(w) =>
      hide Bag;
      r := clue;
      WareKeeps(s.mesh, s.mesh.ware + [s.workers[w].chunk], i);
      ClueStays(s, StepMover(s, e), i, clue);
  }

  lemma DispatchMoves(s: State, w: nat, i: nat, clue: Clue) returns (r: Clue)
    requires Shape(s) && RunnerEnabled(s, Dispatch(w)) && i < |s.fibers| && Shows(s, i, clue)
    ensures Shows(StepRunner(s, Dispatch(w)), i, r)
  {
    hide Bag;
    var s' := StepRunner(s, Dispatch(w));
    r := clue;
    if clue == Queued(w) {
      if s.mesh.locals[w][0] == i {
        assert w in s'.fibers[i].ran;
        r := Ran;
      }
    } else if clue.Mailed? {
      assert Inbox(s'.mesh, clue.c, clue.t) == Inbox(s.mesh, clue.c, clue.t);
    }
  }

  lemma SettleMoves(s: State, w: nat, i: nat, clue: Clue)
    requires Shape(s) && RunnerEnabled(s, Settle(w)) && i < |s.fibers| && Shows(s, i, clue)
    ensures Shows(StepRunner(s, Settle(w)), i, clue)
  {
    hide Bag;
    hide Keeps;
    SetLocalKeeps(s.mesh, w, s.mesh.locals[w] + [s.workers[w].i], i);
    SameKeeps(s.mesh, i);
    ClueStays(s, StepRunner(s, Settle(w)), i, clue);
  }

  lemma HandOnly(s: State, e: Event, i: nat)
    requires Shape(s) && RunnerEnabled(s, e) && !e.Dispatch? && !e.Settle? && i < |s.fibers|
    ensures var s' := StepRunner(s, e);
            && SameFiber(s, s', i) && s'.mesh == s.mesh && s'.agents == s.agents && !s.workers[e.w].Routing?
            && (forall w :: 0 <= w < |s.workers| && w != e.w ==> s'.workers[w] == s.workers[w])
  {
    hide ActOn;
    if e.Act? { ActKeepsIdentity(s.fibers[s.workers[e.w].i], e.act); }
  }

  lemma HandMoves(s: State, e: Event, i: nat, clue: Clue)
    requires Shape(s) && RunnerEnabled(s, e) && !e.Dispatch? && !e.Settle? && i < |s.fibers| && Shows(s, i, clue)
    ensures Shows(StepRunner(s, e), i, clue)
  {
    hide StepRunner;
    hide RunnerEnabled;
    HandOnly(s, e, i);
    SameKeeps(s.mesh, i);
    hide Keeps;
    ClueStays(s, StepRunner(s, e), i, clue);
  }

  lemma RunnerMoves(s: State, e: Event, i: nat, clue: Clue) returns (r: Clue)
    requires Shape(s) && RunnerEnabled(s, e) && i < |s.fibers| && Shows(s, i, clue)
    ensures Shows(StepRunner(s, e), i, r)
  {
    hide Shows;
    hide StepRunner;
    r := clue;
    match e
    case Dispatch(w) => r := DispatchMoves(s, w, i, clue);
    case Settle(w) => SettleMoves(s, w, i, clue);
    case _ => HandMoves(s, e, i, clue);
  }

  // ----- the invariant -----

  ghost predicate Away(s: State, i: nat)
    requires Shape(s) && i < |s.fibers|
  {
    exists clue :: Shows(s, i, clue)
  }

  /** The wake `e` finds pinned fiber `i` parked and carries the core of another worker. */
  predicate Misdirects(s: State, e: Event, i: nat) {
    && Shape(s) && e.Wake? && e.f == i && i < |s.fibers|
    && s.fibers[i].pinned && s.fibers[i].st == Yielded && e.core % s.mesh.Workers() != s.fibers[i].origin
  }

  ghost predicate StrayInv(s: State) {
    PinInv(s) && forall i :: 0 <= i < |s.fibers| && s.fibers[i].pinned && s.fibers[i].strayed ==> Away(s, i)
  }

  lemma MisdirectedIsAway(s: State, e: Event, i: nat)
    requires Enabled(s, e) && Misdirects(s, e, i)
    ensures Step(s, e).fibers[i].pinned && Step(s, e).fibers[i].strayed && Away(Step(s, e), i)
  {
    assert Shows(Step(s, e), i, Held(e.a));
  }

  predicate Strayed(f: Fiber) { f.pinned && f.strayed }

  /** A fiber strays by such a wake and by nothing else, and stays strayed until its context is
      used again. */
  lemma AgentStrays(s: State, e: Event, i: nat)
    requires Shape(s) && AgentEnabled(s, e) && i < |s.fibers|
    ensures Strayed(StepAgent(s, e).fibers[i])
            <==> Misdirects(s, e, i) || (Strayed(s.fibers[i]) && !(e.Publish? && s.agents[e.a].i == i))
  {
    hide Tasks;
    hide DoEnqueue;
    hide DoHop;
    if AgentMove(e) {
      AgentMoveCarries(s, e, i);
      hide StepAgent;
    }
  }

  lemma RunnerStrays(s: State, e: Event, i: nat)
    requires Shape(s) && RunnerEnabled(s, e) && i < |s.fibers|
    ensures Strayed(StepRunner(s, e).fibers[i]) <==> Strayed(s.fibers[i])
  {
    hide PushLocal;
    hide SetLocal;
    hide ActOn;
    if e.Act? { ActKeepsIdentity(s.fibers[s.workers[e.w].i], e.act); }
  }

  lemma StrayedIff(s: State, e: Event, i: nat)
    requires Enabled(s, e) && i < |s.fibers|
    ensures Strayed(Step(s, e).fibers[i])
            <==> Misdirects(s, e, i) || (Strayed(s.fibers[i]) && !(e.Publish? && s.agents[e.a].i == i))
  {
    hide StepAgent;
    hide StepRunner;
    if AgentEnabled(s, e) {
      AgentStrays(s, e, i);
    } else if MoverEnabled(s, e) {
      MoverCarries(s, e, i);
      hide StepMover;
    } else {
      RunnerStrays(s, e, i);
    }
  }

  lemma StepKeepsAway(s: State, e: Event, i: nat)
    requires PinInv(s) && Enabled(s, e) && i < |s.fibers| && Strayed(s.fibers[i]) && Away(s, i)
    requires e.Publish? ==> s.agents[e.a].i != i
    ensures Away(Step(s, e), i)
  {
    hide Owned;
    hide Shows;
    hide StepAgent;
    hide StepMover;
    hide StepRunner;
    var clue :| Shows(s, i, clue);
    if AgentEnabled(s, e) {
      clue := AgentMoves(s, e, i, clue);
    } else if MoverEnabled(s, e) {
      clue := MoverMoves(s, e, i, clue);
    } else {
      clue := RunnerMoves(s, e, i, clue);
    }
  }

  lemma StepKeepsStrayInv(s: State, e: Event)
    requires StrayInv(s) && Enabled(s, e)
    ensures StrayInv(Step(s, e))
  {
    hide Away;
    StepKeepsPinInv(s, e);
    forall i | 0 <= i < |s.fibers| && Strayed(Step(s, e).fibers[i]) ensures Away(Step(s, e), i) {
      StrayedIff(s, e, i);
      if Misdirects(s, e, i) { MisdirectedIsAway(s, e, i); } else { StepKeepsAway(s, e, i); }
    }
    hide PinInv;
    hide Step;
  }

  lemma {:induction false} RunKeepsStrayInv(s: State, es: seq<Event>)
    requires StrayInv(s) && Valid(s, es)
    ensures StrayInv(Execute(s, es))
    decreases |es|
  {
    hide StrayInv;
    if es != [] {
      StepKeepsStrayInv(s, es[0]);
      RunKeepsStrayInv(Step(s, es[0]), es[1..]);
    }
  }

  lemma FreshStrayInv(n: nat, pool: nat, agents: nat)
    requires 0 < n && pool <= LOCAL_QUEUE_HIGH_WATERMARK
    ensures StrayInv(Fresh0(n, pool, agents))
  {
    FreshOwned(n, pool, agents);
  }

  /** Pinning, state by state: in every run of a pool of at most LOCAL_QUEUE_HIGH_WATERMARK
      contexts a pinned fiber has been queued for, held by and run by its origin worker alone,
      and kept out of the warehouse, if and only if no wake of this incarnation was misdirected.
      There is no way back: a fiber that a wake has sent elsewhere stays away, or has run
      there. */
  lemma PinnedAtHomeIff(n: nat, pool: nat, agents: nat, es: seq<Event>, i: nat)
    requires 0 < n && pool <= LOCAL_QUEUE_HIGH_WATERMARK && Valid(Fresh0(n, pool, agents), es) && i < pool
    ensures var s := Execute(Fresh0(n, pool, agents), es);
            s.fibers[i].pinned ==> (AtHome(s, i) <==> !s.fibers[i].strayed)
  {
    hide AtHome;
    hide Owned;
    var s := Execute(Fresh0(n, pool, agents), es);
    FreshStrayInv(n, pool, agents);
    RunKeepsStrayInv(Fresh0(n, pool, agents), es);
    if Strayed(s.fibers[i]) {
      var clue :| Shows(s, i, clue);
      ClueNotHome(s, i, clue);
    }
  }

  // ----- over a run -----

  lemma {:induction false} StateAtNext(s: State, es: seq<Event>, k: nat)
    requires Valid(s, es) && k < |es|
    ensures Enabled(StateAt(s, es, k), es[k]) && StateAt(s, es, k + 1) == Step(StateAt(s, es, k), es[k])
    decreases k
  {
    if k > 0 {
      StateAtNext(Step(s, es[0]), es[1..], k - 1);
    } else {
      assert StateAt(s, es, 1) == StateAt(Step(s, es[0]), es[1..], 0);
    }
  }

  lemma {:induction false} StateAtKeepsStrayInv(s: State, es: seq<Event>, k: nat)
    requires StrayInv(s) && Valid(s, es) && k <= |es|
    ensures StrayInv(StateAt(s, es, k)) && |StateAt(s, es, k).fibers| == |s.fibers|
    decreases k
  {
    hide StrayInv;
    if k > 0 {
      StateAtKeepsStrayInv(s, es, k - 1);
      StateAtNext(s, es, k - 1);
      StepKeepsStrayInv(StateAt(s, es, k - 1), es[k - 1]);
    }
  }

  ghost predicate LeftHome(s: State, i: nat) {
    Shape(s) && i < |s.fibers| && s.fibers[i].pinned && !AtHome(s, i)
  }

  /** A strayed fiber was misdirected at some step. */
  lemma {:induction false} StrayedByWake(s: State, es: seq<Event>, k: nat, i: nat) returns (j: nat)
    requires StrayInv(s) && Valid(s, es) && 0 < k <= |es| && i < |s.fibers| && !Strayed(s.fibers[i])
    requires i < |StateAt(s, es, k).fibers| && Strayed(StateAt(s, es, k).fibers[i])
    ensures j < k && Misdirects(StateAt(s, es, j), es[j], i)
    decreases k
  {
    hide StrayInv;
    hide Step;
    hide Strayed;
    hide Misdirects;
    j := k - 1;
    StateAtKeepsStrayInv(s, es, j);
    StateAtNext(s, es, j);
    StrayedIff(StateAt(s, es, j), es[j], i);
    if !Misdirects(StateAt(s, es, j), es[j], i) { j := StrayedByWake(s, es, j, i); }
  }

  /** Pinning over whole runs: in a pool of at most LOCAL_QUEUE_HIGH_WATERMARK contexts the run
      takes pinned fiber `i` away from its origin at some point if and only if some wake in the
      run found it Yielded and carried a core that is not its origin, modulo the number of
      workers. */
  lemma PinnedLeavesHomeIff(n: nat, pool: nat, agents: nat, es: seq<Event>, i: nat)
    requires 0 < n && pool <= LOCAL_QUEUE_HIGH_WATERMARK && Valid(Fresh0(n, pool, agents), es) && i < pool
    ensures var s := Fresh0(n, pool, agents);
            (exists k :: 0 <= k <= |es| && LeftHome(StateAt(s, es, k), i))
            <==> (exists k :: 0 <= k < |es| && Misdirects(StateAt(s, es, k), es[k], i))
  {
    hide AtHome;
    hide Step;
    var s := Fresh0(n, pool, agents);
    FreshStrayInv(n, pool, agents);
    if k :| 0 <= k <= |es| && LeftHome(StateAt(s, es, k), i) {
      StateAtKeepsStrayInv(s, es, k);
      hide Owned;
      var j := StrayedByWake(s, es, k, i);
    }
    if k :| 0 <= k < |es| && Misdirects(StateAt(s, es, k), es[k], i) {
      StateAtNext(s, es, k);
      MisdirectedIsAway(StateAt(s, es, k), es[k], i);
      var t := StateAt(s, es, k + 1);
      var clue :| Shows(t, i, clue);
      ClueNotHome(t, i, clue);
      assert LeftHome(t, i);
    }
  }

  lemma {:induction false} StateAtEnd(s: State, es: seq<Event>)
    requires Valid(s, es)
    ensures StateAt(s, es, |es|) == Execute(s, es)
    decreases |es|
  {
    if es != [] { StateAtEnd(Step(s, es[0]), es[1..]); }
  }

  /** Every wake in the run that finds a pinned fiber parked carries its origin. */
  ghost predicate WellDirected(s: State, es: seq<Event>)
    requires Valid(s, es)
  {
    forall k, i :: 0 <= k < |es| && 0 <= i ==> !Misdirects(StateAt(s, es, k), es[k], i)
  }

  /** So in a run of well-directed wakes every pinned fiber is home, whatever else happens. */
  lemma PinnedStaysHome(n: nat, pool: nat, agents: nat, es: seq<Event>)
    requires 0 < n && pool <= LOCAL_QUEUE_HIGH_WATERMARK && Valid(Fresh0(n, pool, agents), es)
    requires WellDirected(Fresh0(n, pool, agents), es)
    ensures PinnedHome(Execute(Fresh0(n, pool, agents), es))
  {
    hide AtHome;
    var s := Fresh0(n, pool, agents);
    StateAtEnd(s, es);
    var t := Execute(s, es);
    forall i | 0 <= i < |t.fibers| && t.fibers[i].pinned ensures AtHome(t, i) {
      PinnedLeavesHomeIff(n, pool, agents, es, i);
      assert !LeftHome(StateAt(s, es, |es|), i);
    }
  }
}
