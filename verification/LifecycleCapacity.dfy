/** Counting over the single-owner invariant: how large a pool the queues can carry. */
module LifecycleCapacity {
  import opened Limits
  import opened Mesh
  import R = Routing
  import opened Lifecycle
  import opened LifecycleOwner
  import opened LifecycleWake
  import opened LifecycleTheorems

  // ----- counting -----

  /** Pigeonhole: distinct indices below `k` number at most `k`. */
  lemma {:induction false} Pigeonhole(bag: multiset<nat>, k: nat)
    requires forall i: nat :: bag[i] <= One(i < k)
    ensures |bag| <= k
  {
    if k == 0 {
      assert bag == multiset{};
    } else {
      Pigeonhole(bag[k - 1 := 0], k - 1);
      assert bag == bag[k - 1 := 0] + multiset{}[k - 1 := bag[k - 1]];
    }
  }

  predicate Loaded(q: seq<Chunk>) { forall k :: 0 <= k < |q| ==> q[k].tasks != [] }

  lemma {:induction false} LoadedIsLong(q: seq<Chunk>)
    requires Loaded(q)
    ensures |q| <= |Bag(q)|
  {
    if q != [] { LoadedIsLong(q[1..]); }
  }

  lemma {:induction false} RowHoldsQueue(row: seq<seq<Chunk>>, t: nat)
    requires t < |row|
    ensures |Bag(row[t])| <= |RowBag(row)|
  {
    if t > 0 { RowHoldsQueue(row[1..], t - 1); }
  }

  lemma {:induction false} MatrixHoldsRow(rows: seq<seq<seq<Chunk>>>, p: nat)
    requires p < |rows|
    ensures |RowBag(rows[p])| <= |MatrixBag(rows)|
  {
    if p > 0 { MatrixHoldsRow(rows[1..], p - 1); }
  }

  lemma {:induction false} LocalsHoldQueue(qs: seq<seq<Task>>, w: nat)
    requires w < |qs|
    ensures |qs[w]| <= |LocalBag(qs)|
  {
    if w > 0 { LocalsHoldQueue(qs[1..], w - 1); }
  }

  lemma MeshHoldsLocal(m: Mesh, w: nat)
    requires m.Shape() && w < m.Workers()
    ensures |m.locals[w]| <= |Tasks(m)|
  {
    LocalsHoldQueue(m.locals, w);
  }

  lemma MeshHoldsInbox(m: Mesh, c: Caller, t: nat)
    requires m.Shape() && CallerOk(m, c) && t < m.Workers() && Loaded(Inbox(m, c, t))
    ensures |Inbox(m, c, t)| <= |Tasks(m)|
  {
    LoadedIsLong(Inbox(m, c, t));
    match c
    case Worker(p) =>
      RowHoldsQueue(m.mail[p], t);
      MatrixHoldsRow(m.mail, p);
    case Host => RowHoldsQueue(m.ext, t);
  }

  /** What is queued and what one agent or worker carries together never exceed the pool. */
  lemma AgentRoom(s: State, a: nat, hand: multiset<nat>)
    requires Owned(s) && a < |s.agents| && forall i: nat :: hand[i] == AgentHas(s.agents[a], i)
    ensures |Tasks(s.mesh)| + |hand| <= |s.fibers|
  {
    hide Tasks;
    forall i: nat ensures (Tasks(s.mesh) + hand)[i] <= One(i < |s.fibers|) {
      assert Places(s, i) == One(i < |s.fibers|);
      AgentsAtLeast(s.agents, a, a, i);
    }
    Pigeonhole(Tasks(s.mesh) + hand, |s.fibers|);
  }

  lemma WorkerRoom(s: State, w: nat, hand: multiset<nat>)
    requires Owned(s) && w < |s.workers| && forall i: nat :: hand[i] == WorkerHas(s.workers[w], i)
    ensures |Tasks(s.mesh)| + |hand| <= |s.fibers|
  {
    hide Tasks;
    forall i: nat ensures (Tasks(s.mesh) + hand)[i] <= One(i < |s.fibers|) {
      assert Places(s, i) == One(i < |s.fibers|);
      WorkersAtLeast(s.workers, w, w, i);
    }
    Pigeonhole(Tasks(s.mesh) + hand, |s.fibers|);
  }

  // ----- the invariant of a small pool -----

  ghost predicate AllLoaded(m: Mesh)
    requires m.Shape()
  {
    && (forall p, t :: 0 <= p < m.Workers() && 0 <= t < m.Workers() ==> Loaded(m.mail[p][t]))
    && (forall t :: 0 <= t < m.Workers() ==> Loaded(m.ext[t]))
  }

  predicate AgentAtEase(pc: AgentPc) { !pc.Diverting? && (pc.Hopping? ==> pc.chunk.tasks != []) }

  predicate WorkerAtEase(pc: WorkerPc) {
    !pc.Stowing? && !pc.Parking? && (pc.Routing? ==> pc.chunk.tasks != [])
  }

  ghost predicate AtEase(s: State) {
    && Shape(s) && |s.fibers| <= MAILBOX_CAPACITY - 1
    && !s.rejected && !s.parked && s.mesh.ware == []
    && AllLoaded(s.mesh)
    && (forall a :: 0 <= a < |s.agents| ==> AgentAtEase(s.agents[a]))
    && (forall w :: 0 <= w < |s.workers| ==> WorkerAtEase(s.workers[w]))
  }

  lemma InboxLoaded(m: Mesh, c: Caller, t: nat)
    requires m.Shape() && AllLoaded(m) && CallerOk(m, c) && t < m.Workers()
    ensures Loaded(Inbox(m, c, t))
  {
  }

  lemma SetInboxLoaded(m: Mesh, c: Caller, t: nat, q: seq<Chunk>)
    requires m.Shape() && AllLoaded(m) && CallerOk(m, c) && t < m.Workers() && Loaded(q)
    ensures AllLoaded(SetInbox(m, c, t, q)) && SetInbox(m, c, t, q).ware == m.ware
  {
  }

  lemma PostHasRoom(m: Mesh, c: Caller, t: nat, chunk: Chunk)
    requires m.Shape() && AllLoaded(m) && CallerOk(m, c) && t < m.Workers() && chunk.tasks != []
    requires |Tasks(m)| < MAILBOX_CAPACITY - 1
    ensures Post(m, c, t, chunk).1 && AllLoaded(Post(m, c, t, chunk).0) && Post(m, c, t, chunk).0.ware == m.ware
  {
    hide Tasks;
    hide AllLoaded;
    InboxLoaded(m, c, t);
    MeshHoldsInbox(m, c, t);
    SetInboxLoaded(m, c, t, Inbox(m, c, t) + [chunk]);
  }

  lemma PushLocalHasRoom(m: Mesh, w: nat, task: Task)
    requires m.Shape() && AllLoaded(m) && w < m.Workers() && |Tasks(m)| < LOCAL_QUEUE_CAPACITY - 1
    ensures PushLocal(m, w, task).1 && AllLoaded(PushLocal(m, w, task).0) && PushLocal(m, w, task).0.ware == m.ware
  {
    hide Tasks;
    MeshHoldsLocal(m, w);
  }

  lemma PushStaysAtEase(s: State, a: nat, r: (Mesh, bool), retry: AgentPc)
    requires AtEase(s) && a < |s.agents| && AgentAtEase(retry)
    requires r.1 && r.0.Shape() && r.0.Workers() == s.mesh.Workers() && AllLoaded(r.0) && r.0.ware == []
    ensures AtEase(AgentPush(s, a, r, retry)) && AtEase(AgentTo(s, a, retry))
  {
    hide AllLoaded;
  }

  lemma EnqueueStaysAtEase(s: State, a: nat, caller: Caller, busy: bool, target: nat)
    requires Owned(s) && AtEase(s) && AgentEnabled(s, Enqueue(a, caller, busy, target))
    ensures AtEase(DoEnqueue(s, a, caller, busy, target))
  {
    hide Places;
    hide Tasks;
    hide AllLoaded;
    hide AgentPush;
    var Enqueuing(j, core) := s.agents[a];
    var n := s.mesh.Workers();
    AgentRoom(s, a, multiset{j});
    PostHasRoom(s.mesh, caller, core % n, Single(j));
    PushLocalHasRoom(s.mesh, core % n, j);
    PushLocalHasRoom(s.mesh, target, j);
    var hop := Hopping(Single(j), caller, R.OffOwnColumn(n, caller, target));
    PushStaysAtEase(s, a, PushLocal(s.mesh, core % n, j), s.agents[a]);
    PushStaysAtEase(s, a, Post(s.mesh, caller, core % n, Single(j)), s.agents[a]);
    PushStaysAtEase(s, a, PushLocal(s.mesh, target, j), hop);
  }

  lemma HopStaysAtEase(s: State, a: nat)
    requires Owned(s) && AtEase(s) && AgentEnabled(s, Hop(a))
    ensures AtEase(DoHop(s, a))
  {
    hide Places;
    hide Tasks;
    hide AllLoaded;
    var Hopping(chunk, caller, target) := s.agents[a];
    AgentRoom(s, a, multiset(chunk.tasks));
    assert AgentAtEase(s.agents[a]);
    PostHasRoom(s.mesh, caller, target, chunk);
    PushStaysAtEase(s, a, Post(s.mesh, caller, target, chunk), Rest);
  }

  lemma AgentStaysAtEase(s: State, e: Event)
    requires Owned(s) && AtEase(s) && AgentEnabled(s, e)
    ensures AtEase(StepAgent(s, e))
  {
    hide Owned;
    hide AllLoaded;
    hide DoEnqueue;
    hide DoHop;
    match e
    case Enqueue(a, caller, busy, target) => EnqueueStaysAtEase(s, a, caller, busy, target);
    case Hop(a) => HopStaysAtEase(s, a);
    case _ =>
  }

  lemma RouteStaysAtEase(s: State, w: nat)
    requires Owned(s) && AtEase(s) && MoverEnabled(s, Route(w))
    ensures AtEase(DoRoute(s, w))
  {
    hide Places;
    hide Tasks;
    WorkerRoom(s, w, multiset(s.workers[w].chunk.tasks));
    MeshHoldsLocal(s.mesh, w);
    assert R.SpaceOk(s.mesh, w, s.workers[w].chunk);
  }

  lemma MoverStaysAtEase(s: State, e: Event)
    requires Owned(s) && AtEase(s) && MoverEnabled(s, e)
    ensures AtEase(StepMover(s, e))
  {
    hide Owned;
    hide AllLoaded;
    hide DoRoute;
    match e
    case Poll(w, from) =>
      InboxLoaded(s.mesh, from, w);
      SetInboxLoaded(s.mesh, from, w, Inbox(s.mesh, from, w)[1..]);
    case Route(w) => RouteStaysAtEase(s, w);
    case _ =>
  }

  lemma SettleStaysAtEase(s: State, w: nat)
    requires Owned(s) && AtEase(s) && RunnerEnabled(s, Settle(w))
    ensures AtEase(DoSettle(s, w))
  {
    hide Places;
    hide Tasks;
    var j := s.workers[w].i;
    WorkerRoom(s, w, multiset{j});
    PushLocalHasRoom(s.mesh, w, j);
  }

  lemma RunnerStaysAtEase(s: State, e: Event)
    requires Owned(s) && AtEase(s) && RunnerEnabled(s, e)
    ensures AtEase(StepRunner(s, e))
  {
    hide Owned;
    hide DoSettle;
    match e
    case Settle(w) => SettleStaysAtEase(s, w);
    case _ =>
  }

  lemma {:induction false} RunStaysAtEase(s: State, es: seq<Event>)
    requires Owned(s) && AtEase(s) && Valid(s, es)
    ensures AtEase(Execute(s, es))
    decreases |es|
  {
    hide Owned;
    hide AtEase;
    hide StepAgent;
    hide StepMover;
    hide StepRunner;
    if es != [] {
      var e := es[0];
      if AgentEnabled(s, e) { AgentStaysAtEase(s, e); }
      else if MoverEnabled(s, e) { MoverStaysAtEase(s, e); }
      else { RunnerStaysAtEase(s, e); }
      StepKeepsOwned(s, e);
      RunStaysAtEase(Step(s, e), es[1..]);
    }
  }

  /** Capacity: with a pool of at most MAILBOX_CAPACITY - 1 contexts no run ever sees a failed
      push, so no wake retries, no re-enqueue is dropped, and nothing enters the warehouse. */
  lemma SmallPoolNeverOverflows(n: nat, pool: nat, agents: nat, es: seq<Event>)
    requires 0 < n && pool <= MAILBOX_CAPACITY - 1 && Valid(Fresh0(n, pool, agents), es)
    ensures var s := Execute(Fresh0(n, pool, agents), es);
            !s.rejected && !s.parked && s.mesh.ware == [] && s.dropped == {}
  {
    FreshOwned(n, pool, agents);
    RunStaysAtEase(Fresh0(n, pool, agents), es);
    Reached(n, pool, agents, es);
  }

  // ----- the re-enqueue of a notified fiber -----

  lemma StepDropsNothing(s: State, e: Event)
    requires WakeInv(s) && Enabled(s, e) && |s.fibers| <= LOCAL_QUEUE_CAPACITY - 1
    ensures Step(s, e).dropped == s.dropped
  {
    hide Fits;
    hide Tasks;
    hide Places;
    if e.Settle? {
      var j := s.workers[e.w].i;
      WorkerHolds(s, e.w, j);
      SettleFits(s, e.w, j);
      WorkerRoom(s, e.w, multiset{j});
      MeshHoldsLocal(s.mesh, e.w);
    } else {
      OnlySettleDrops(s, e);
    }
  }

  lemma {:induction false} RunDropsNothing(s: State, es: seq<Event>)
    requires WakeInv(s) && Valid(s, es) && |s.fibers| <= LOCAL_QUEUE_CAPACITY - 1
    ensures Execute(s, es).dropped == s.dropped
    decreases |es|
  {
    hide WakeInv;
    if es != [] {
      StepDropsNothing(s, es[0]);
      StepKeepsWakeInv(s, es[0]);
      RunDropsNothing(Step(s, es[0]), es[1..]);
    }
  }
}
