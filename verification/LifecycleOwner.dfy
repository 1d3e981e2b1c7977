/** Single ownership: in every run each context index is in exactly one place. */
module LifecycleOwner {
  import opened Arith
  import opened Limits
  import opened Mesh
  import R = Routing
  import opened FiberStatus
  import opened Lifecycle

  function One(b: bool): nat { if b then 1 else 0 }

  /** How often index `i` is in a worker's (an agent's) hands. */
  function WorkerHas(pc: WorkerPc, i: nat): nat {
    match pc
    case Idle => 0
    case Routing(c) => multiset(c.tasks)[i]
    case Stowing(c) => multiset(c.tasks)[i]
    case Parking(c) => multiset(c.tasks)[i]
    case Run(j) => One(i == j)
    case Back(j) => One(i == j)
    case ParkCas(j) => One(i == j)
    case Settling(j, _) => One(i == j)
    case Resetting(j) => One(i == j)
    case Freeing(j) => One(i == j)
  }

  function AgentHas(pc: AgentPc, i: nat): nat {
    match pc
    case Rest => 0
    case Spawning(j) => One(i == j)
    case Enqueuing(j, _) => One(i == j)
    case Hopping(c, _, _) => multiset(c.tasks)[i]
    case Diverting(c) => multiset(c.tasks)[i]
  }

  function WorkersHave(ws: seq<WorkerPc>, i: nat): nat {
    if ws == [] then 0 else WorkerHas(ws[0], i) + WorkersHave(ws[1..], i)
  }

  function AgentsHave(ags: seq<AgentPc>, i: nat): nat {
    if ags == [] then 0 else AgentHas(ags[0], i) + AgentsHave(ags[1..], i)
  }

  /** The fiber is suspended and nobody holds it. */
  predicate IsParked(s: State, i: nat) {
    i < |s.fibers| && s.fibers[i].st == Yielded
  }

  /** The number of places index `i` is in. */
  function Places(s: State, i: nat): nat {
    One(i in s.free) + Tasks(s.mesh)[i] + WorkersHave(s.workers, i) + AgentsHave(s.agents, i)
    + One(IsParked(s, i)) + One(i in s.dropped)
  }

  ghost predicate Owned(s: State) {
    Shape(s) && forall i: nat :: Places(s, i) == One(i < |s.fibers|)
  }

  // ----- bookkeeping -----

  lemma {:induction false} WorkersUpdate(ws: seq<WorkerPc>, w: nat, pc: WorkerPc, i: nat)
    requires w < |ws|
    ensures WorkersHave(ws[w := pc], i) == WorkersHave(ws, i) - WorkerHas(ws[w], i) + WorkerHas(pc, i)
  {
    if w == 0 {
      assert ws[w := pc][1..] == ws[1..];
    } else {
      assert ws[w := pc][1..] == ws[1..][w - 1 := pc];
      WorkersUpdate(ws[1..], w - 1, pc, i);
    }
  }

  lemma {:induction false} AgentsUpdate(ags: seq<AgentPc>, a: nat, pc: AgentPc, i: nat)
    requires a < |ags|
    ensures AgentsHave(ags[a := pc], i) == AgentsHave(ags, i) - AgentHas(ags[a], i) + AgentHas(pc, i)
  {
    if a == 0 {
      assert ags[a := pc][1..] == ags[1..];
    } else {
      assert ags[a := pc][1..] == ags[1..][a - 1 := pc];
      AgentsUpdate(ags[1..], a - 1, pc, i);
    }
  }

  /** A holder is counted, and two holders are counted twice. */
  lemma {:induction false} WorkersAtLeast(ws: seq<WorkerPc>, w: nat, u: nat, i: nat)
    requires w < |ws| && u < |ws|
    ensures WorkersHave(ws, i) >= WorkerHas(ws[w], i)
    ensures w != u ==> WorkersHave(ws, i) >= WorkerHas(ws[w], i) + WorkerHas(ws[u], i)
  {
    if w > 0 && u > 0 {
      WorkersAtLeast(ws[1..], w - 1, u - 1, i);
    } else if w > 0 {
      WorkersAtLeast(ws[1..], w - 1, w - 1, i);
    } else if u > 0 {
      WorkersAtLeast(ws[1..], u - 1, u - 1, i);
    }
  }

  lemma {:induction false} AgentsAtLeast(ags: seq<AgentPc>, a: nat, b: nat, i: nat)
    requires a < |ags| && b < |ags|
    ensures AgentsHave(ags, i) >= AgentHas(ags[a], i)
    ensures a != b ==> AgentsHave(ags, i) >= AgentHas(ags[a], i) + AgentHas(ags[b], i)
  {
    if a > 0 && b > 0 {
      AgentsAtLeast(ags[1..], a - 1, b - 1, i);
    } else if a > 0 {
      AgentsAtLeast(ags[1..], a - 1, a - 1, i);
    } else if b > 0 {
      AgentsAtLeast(ags[1..], b - 1, b - 1, i);
    }
  }

  lemma {:induction false} NobodyHolds(ws: seq<WorkerPc>, ags: seq<AgentPc>, i: nat)
    requires forall w :: 0 <= w < |ws| ==> ws[w].Idle?
    requires forall a :: 0 <= a < |ags| ==> ags[a].Rest?
    ensures WorkersHave(ws, i) == 0 && AgentsHave(ags, i) == 0
    decreases |ws| + |ags|
  {
    if ws != [] { NobodyHolds(ws[1..], ags, i); }
    if ags != [] { NobodyHolds(ws, ags[1..], i); }
  }

  lemma FreshOwned(n: nat, pool: nat, agents: nat)
    requires 0 < n
    ensures Owned(Fresh0(n, pool, agents))
  {
    var s := Fresh0(n, pool, agents);
    EmptyMeshHasNoTasks(n);
    forall i: nat ensures Places(s, i) == One(i < |s.fibers|) {
      NobodyHolds(s.workers, s.agents, i);
      if i < pool { assert Upto(pool)[i] == i; }
    }
  }

  // ----- who holds what -----

  lemma AgentHolds(s: State, a: nat, i: nat)
    requires Owned(s) && a < |s.agents| && AgentHas(s.agents[a], i) > 0
    ensures i < |s.fibers| && !IsParked(s, i) && i !in s.free && i !in s.dropped && Tasks(s.mesh)[i] == 0
    ensures forall w :: 0 <= w < |s.workers| ==> WorkerHas(s.workers[w], i) == 0
    ensures forall b :: 0 <= b < |s.agents| && b != a ==> AgentHas(s.agents[b], i) == 0
    ensures AgentHas(s.agents[a], i) == 1
  {
    hide Tasks;
    assert Places(s, i) == One(i < |s.fibers|);
    AgentsAtLeast(s.agents, a, a, i);
    forall w | 0 <= w < |s.workers| ensures WorkerHas(s.workers[w], i) == 0 { WorkersAtLeast(s.workers, w, w, i); }
    forall b | 0 <= b < |s.agents| && b != a ensures AgentHas(s.agents[b], i) == 0 { AgentsAtLeast(s.agents, a, b, i); }
  }

  lemma WorkerHolds(s: State, w: nat, i: nat)
    requires Owned(s) && w < |s.workers| && WorkerHas(s.workers[w], i) > 0
    ensures i < |s.fibers| && !IsParked(s, i) && i !in s.free && i !in s.dropped && Tasks(s.mesh)[i] == 0
    ensures forall u :: 0 <= u < |s.workers| && u != w ==> WorkerHas(s.workers[u], i) == 0
    ensures forall a :: 0 <= a < |s.agents| ==> AgentHas(s.agents[a], i) == 0
    ensures WorkerHas(s.workers[w], i) == 1
  {
    hide Tasks;
    assert Places(s, i) == One(i < |s.fibers|);
    WorkersAtLeast(s.workers, w, w, i);
    forall a | 0 <= a < |s.agents| ensures AgentHas(s.agents[a], i) == 0 { AgentsAtLeast(s.agents, a, a, i); }
    forall u | 0 <= u < |s.workers| && u != w ensures WorkerHas(s.workers[u], i) == 0 {
      WorkersAtLeast(s.workers, w, u, i);
    }
  }

  /** An index that is queued, parked or free is in nobody's hands. */
  lemma NotInHand(s: State, i: nat)
    requires Owned(s) && (Tasks(s.mesh)[i] > 0 || IsParked(s, i) || i in s.free)
    ensures i < |s.fibers|
    ensures forall w :: 0 <= w < |s.workers| ==> WorkerHas(s.workers[w], i) == 0
    ensures forall a :: 0 <= a < |s.agents| ==> AgentHas(s.agents[a], i) == 0
    ensures Tasks(s.mesh)[i] + One(IsParked(s, i)) + One(i in s.free) == 1
  {
    hide Tasks;
    assert Places(s, i) == One(i < |s.fibers|);
    forall w | 0 <= w < |s.workers| ensures WorkerHas(s.workers[w], i) == 0 { WorkersAtLeast(s.workers, w, w, i); }
    forall a | 0 <= a < |s.agents| ensures AgentHas(s.agents[a], i) == 0 { AgentsAtLeast(s.agents, a, a, i); }
  }

  // ----- carrying: tasks move between the mesh and one agent's or worker's hands -----

  predicate AgentCarrier(pc: AgentPc) { !pc.Spawning? }

  predicate AgentCarries(s: State, s': State, a: nat, i: nat) {
    && a < |s.agents| == |s'.agents|
    && s'.agents == s.agents[a := s'.agents[a]]
    && s'.fibers == s.fibers && s'.free == s.free && s'.dropped == s.dropped && s'.workers == s.workers
    && AgentCarrier(s.agents[a]) && AgentCarrier(s'.agents[a])
    && Tasks(s'.mesh)[i] + AgentHas(s'.agents[a], i) == Tasks(s.mesh)[i] + AgentHas(s.agents[a], i)
  }

  lemma AgentCarriesKeepsPlaces(s: State, s': State, a: nat, i: nat)
    requires AgentCarries(s, s', a, i)
    ensures Places(s', i) == Places(s, i)
  {
    hide Tasks;
    hide AgentsHave;
    AgentsUpdate(s.agents, a, s'.agents[a], i);
  }

  predicate AgentMove(e: Event) { e.Enqueue? || e.Hop? || e.Divert? }

  lemma PushCarries(s: State, a: nat, r: (Mesh, bool), retry: AgentPc, i: nat)
    requires a < |s.agents| && AgentCarrier(s.agents[a]) && AgentCarrier(retry)
    requires AgentHas(retry, i) == AgentHas(s.agents[a], i)
    requires Tasks(r.0)[i] == Tasks(s.mesh)[i] + (if r.1 then AgentHas(s.agents[a], i) else 0)
    ensures AgentCarries(s, AgentPush(s, a, r, retry), a, i)
    ensures AgentCarries(s, AgentTo(s, a, retry), a, i)
  {
    hide Tasks;
  }

  lemma EnqueuePinnedCarries(s: State, a: nat, caller: Caller, t: nat, i: nat)
    requires Shape(s) && a < |s.agents| && s.agents[a].Enqueuing? && CallerOk(s.mesh, caller) && t < s.mesh.Workers()
    ensures AgentCarries(s, AgentPush(s, a, PushLocal(s.mesh, t, s.agents[a].i), s.agents[a]), a, i)
    ensures AgentCarries(s, AgentPush(s, a, Post(s.mesh, caller, t, Single(s.agents[a].i)), s.agents[a]), a, i)
  {
    hide Tasks;
    hide AgentCarries;
    var j := s.agents[a].i;
    PushLocalTasks(s.mesh, t, j);
    PostTasks(s.mesh, caller, t, Single(j));
    PushCarries(s, a, PushLocal(s.mesh, t, j), s.agents[a], i);
    PushCarries(s, a, Post(s.mesh, caller, t, Single(j)), s.agents[a], i);
  }

  lemma EnqueueDeflectCarries(s: State, a: nat, t: nat, retry: AgentPc, i: nat)
    requires Shape(s) && a < |s.agents| && s.agents[a].Enqueuing? && t < s.mesh.Workers()
    requires AgentCarrier(retry) && AgentHas(retry, i) == One(i == s.agents[a].i)
    ensures AgentCarries(s, AgentPush(s, a, PushLocal(s.mesh, t, s.agents[a].i), retry), a, i)
    ensures AgentCarries(s, AgentTo(s, a, retry), a, i)
  {
    hide Tasks;
    hide AgentCarries;
    PushLocalTasks(s.mesh, t, s.agents[a].i);
    PushCarries(s, a, PushLocal(s.mesh, t, s.agents[a].i), retry, i);
  }

  lemma EnqueueCarries(s: State, a: nat, caller: Caller, busy: bool, target: nat, i: nat)
    requires Shape(s) && AgentEnabled(s, Enqueue(a, caller, busy, target))
    ensures AgentCarries(s, DoEnqueue(s, a, caller, busy, target), a, i)
  {
    hide AgentCarries;
    hide AgentPush;
    var Enqueuing(j, core) := s.agents[a];
    var n := s.mesh.Workers();
    EnqueuePinnedCarries(s, a, caller, core % n, i);
    EnqueueDeflectCarries(s, a, target, Diverting(Chunk([j], HOPS_EXHAUSTED)), i);
    EnqueueDeflectCarries(s, a, target, Hopping(Single(j), caller, R.OffOwnColumn(n, caller, target)), i);
  }

  lemma HopCarries(s: State, a: nat, i: nat)
    requires Shape(s) && AgentEnabled(s, Hop(a))
    ensures AgentCarries(s, DoHop(s, a), a, i)
  {
    hide Tasks;
    hide AgentCarries;
    var Hopping(chunk, caller, target) := s.agents[a];
    PostTasks(s.mesh, caller, target, chunk);
    var n := s.mesh.Workers();
    var next := chunk.(hops := chunk.hops + 1);
    var hop := Hopping(next, caller, R.HopTarget(n, caller, next.hops));
    var retry := if chunk.hops >= MaxHops(n) then Diverting(chunk) else hop;
    PushCarries(s, a, Post(s.mesh, caller, target, chunk), retry, i);
  }

  lemma AgentMoveCarries(s: State, e: Event, i: nat)
    requires Shape(s) && AgentEnabled(s, e) && AgentMove(e)
    ensures AgentCarries(s, StepAgent(s, e), e.a, i)
  {
    hide Tasks;
    hide DoEnqueue;
    hide DoHop;
    match e
    case Enqueue(a, caller, busy, target) => EnqueueCarries(s, a, caller, busy, target, i);
    case Hop(a) => HopCarries(s, a, i);
    case Divert(a) => ParkTasks(s.mesh, s.agents[a].chunk);
  }

  lemma SpawnKeepsPlaces(s: State, e: Event, i: nat)
    requires Owned(s) && AgentEnabled(s, e) && !AgentMove(e)
    ensures Places(StepAgent(s, e), i) == Places(s, i)
  {
    hide Tasks;
    hide AgentsHave;
    match e
    case Spawn(a, f) => AgentsUpdate(s.agents, a, Spawning(f), i);
    case Publish(a, _, home) =>
      AgentHolds(s, a, s.agents[a].i);
      AgentsUpdate(s.agents, a, Enqueuing(s.agents[a].i, home), i);
    case Wake(a, f, core) => AgentsUpdate(s.agents, a, Enqueuing(f, core), i);
  }

  lemma AgentStepKeepsPlaces(s: State, e: Event, i: nat)
    requires Owned(s) && AgentEnabled(s, e)
    ensures Places(StepAgent(s, e), i) == Places(s, i)
  {
    hide Places;
    hide StepAgent;
    if AgentMove(e) {
      AgentMoveCarries(s, e, i);
      AgentCarriesKeepsPlaces(s, StepAgent(s, e), e.a, i);
    } else {
      SpawnKeepsPlaces(s, e, i);
    }
  }

  /** Program counters whose tasks are on their way into a queue. */
  predicate WorkerCarrier(pc: WorkerPc) {
    pc.Idle? || pc.Routing? || pc.Stowing? || pc.Parking? || (pc.Settling? && pc.seen == Notified)
  }

  predicate WorkerCarries(s: State, s': State, w: nat, i: nat) {
    && w < |s.workers| == |s'.workers|
    && s'.workers == s.workers[w := s'.workers[w]]
    && s'.fibers == s.fibers && s'.free == s.free && s'.dropped == s.dropped && s'.agents == s.agents
    && WorkerCarrier(s.workers[w]) && WorkerCarrier(s'.workers[w])
    && Tasks(s'.mesh)[i] + WorkerHas(s'.workers[w], i) == Tasks(s.mesh)[i] + WorkerHas(s.workers[w], i)
  }

  lemma WorkerCarriesKeepsPlaces(s: State, s': State, w: nat, i: nat)
    requires WorkerCarries(s, s', w, i)
    ensures Places(s', i) == Places(s, i)
  {
    hide Tasks;
    hide WorkersHave;
    WorkersUpdate(s.workers, w, s'.workers[w], i);
  }

  lemma WorkerToCarries(s: State, w: nat, m: Mesh, pc: WorkerPc, i: nat)
    requires w < |s.workers| && WorkerCarrier(s.workers[w]) && WorkerCarrier(pc)
    requires Tasks(m)[i] + WorkerHas(pc, i) == Tasks(s.mesh)[i] + WorkerHas(s.workers[w], i)
    ensures WorkerCarries(s, WorkerTo(s.(mesh := m), w, pc), w, i)
    ensures WorkerCarries(s, WorkerTo(s.(mesh := m, parked := true), w, pc), w, i)
    ensures WorkerCarries(s, WorkerTo(s.(mesh := m, rejected := true), w, pc), w, i)
  {
    hide Tasks;
    hide WorkerHas;
  }

  lemma RouteCarries(s: State, w: nat, i: nat)
    requires Shape(s) && MoverEnabled(s, Route(w))
    ensures WorkerCarries(s, DoRoute(s, w), w, i)
  {
    hide Tasks;
    hide WorkerCarries;
    var chunk := s.workers[w].chunk;
    var n := s.mesh.Workers();
    var k := chunk.(hops := Min(chunk.hops + 1, HOPS_EXHAUSTED));
    var r := Post(s.mesh, Worker(w), R.HopTarget(n, Worker(w), k.hops), k);
    PushBatchTasks(s.mesh, w, chunk);
    PostTasks(s.mesh, Worker(w), R.HopTarget(n, Worker(w), k.hops), k);
    WorkerToCarries(s, w, PushBatch(s.mesh, w, chunk), Idle, i);
    if r.1 { WorkerToCarries(s, w, r.0, Idle, i); }
    WorkerToCarries(s, w, s.mesh, Parking(k), i);
    WorkerToCarries(s, w, s.mesh, Parking(chunk), i);
  }

  lemma MoverCarries(s: State, e: Event, i: nat)
    requires Shape(s) && MoverEnabled(s, e)
    ensures WorkerCarries(s, StepMover(s, e), e.w, i)
  {
    hide Tasks;
    hide WorkerCarries;
    match e
    case Poll(w, from) =>
      TakeInboxTasks(s.mesh, from, w);
      var q := Inbox(s.mesh, from, w);
      WorkerToCarries(s, w, SetInbox(s.mesh, from, w, q[1..]), Routing(q[0]), i);
    case Drain(w) =>
      TakeWareTasks(s.mesh);
      WorkerToCarries(s, w, s.mesh.(ware := s.mesh.ware[1..]), Stowing(s.mesh.ware[0]), i);
    case Route(w) => RouteCarries(s, w, i);
    case Stow(w) =>
      PushBatchTasks(s.mesh, w, s.workers[w].chunk);
      WorkerToCarries(s, w, PushBatch(s.mesh, w, s.workers[w].chunk), Idle, i);
    case ParkChunk(w) =>
      ParkTasks(s.mesh, s.workers[w].chunk);
      WorkerToCarries(s, w, Park(s.mesh, s.workers[w].chunk).0, Idle, i);
  }

  // ----- handling: a worker acts on the one fiber in its hands -----

  predicate InHand(pc: WorkerPc, j: nat) {
    match pc
    case Run(i) => i == j
    case Back(i) => i == j
    case ParkCas(i) => i == j
    case Settling(i, _) => i == j
    case Resetting(i) => i == j
    case Freeing(i) => i == j
    case _ => false
  }

  /** The mesh is left alone; `j` may change state, be parked, freed or dropped. */
  predicate Handles(s: State, s': State, w: nat, j: nat) {
    && w < |s.workers| == |s'.workers| && j < |s.fibers| == |s'.fibers|
    && s'.mesh == s.mesh && s'.agents == s.agents
    && s'.workers == s.workers[w := s'.workers[w]]
    && s'.fibers == s.fibers[j := s'.fibers[j]]
    && InHand(s.workers[w], j)
    && (s'.free == s.free || s'.free == s.free + {j})
    && (s'.dropped == s.dropped || s'.dropped == s.dropped + {j})
    && (InHand(s'.workers[w], j) || s'.workers[w].Idle?)
    && One(InHand(s'.workers[w], j)) + One(s'.fibers[j].st == Yielded)
       + One(s'.free != s.free) + One(s'.dropped != s.dropped) == 1
  }

  lemma HandlesKeepsPlaces(s: State, s': State, w: nat, j: nat, i: nat)
    requires Owned(s) && Handles(s, s', w, j)
    ensures Places(s', i) == Places(s, i)
  {
    hide Tasks;
    hide WorkersHave;
    WorkerHolds(s, w, j);
    WorkersUpdate(s.workers, w, s'.workers[w], i);
  }

  /** No action of a running fiber parks it: only the dispatcher does. */
  lemma ActNeverParks(f: Fiber, act: FiberAct)
    requires f.st != Yielded
    ensures ActOn(f, act).0.st != Yielded
  {
  }

  lemma ToHandles(s: State, w: nat, j: nat, f: Fiber, free: set<nat>, dropped: set<nat>, pc: WorkerPc)
    requires Owned(s) && w < |s.workers| && InHand(s.workers[w], j) && j < |s.fibers|
    requires (free == s.free || free == s.free + {j}) && (dropped == s.dropped || dropped == s.dropped + {j})
    requires InHand(pc, j) || pc.Idle?
    requires One(InHand(pc, j)) + One(f.st == Yielded) + One(free != s.free) + One(dropped != s.dropped) == 1
    ensures var t := s.(fibers := s.fibers[j := f], free := free, dropped := dropped);
            Handles(s, WorkerTo(t, w, pc), w, j) && Handles(s, WorkerTo(t.(rejected := true), w, pc), w, j)
  {
    hide InHand;
    hide Owned;
  }

  lemma ActHandles(s: State, w: nat, act: FiberAct)
    requires Owned(s) && RunnerEnabled(s, Act(w, act))
    ensures Handles(s, StepRunner(s, Act(w, act)), w, s.workers[w].i)
  {
    hide Places;
    hide ActOn;
    hide Handles;
    var j := s.workers[w].i;
    WorkerHolds(s, w, j);
    ActNeverParks(s.fibers[j], act);
    var r := ActOn(s.fibers[j], act);
    ToHandles(s, w, j, r.0, s.free, s.dropped, if r.1 then Back(j) else s.workers[w]);
    assert s.workers == s.workers[w := s.workers[w]];
  }

  lemma LookHandles(s: State, e: Event)
    requires Owned(s) && RunnerEnabled(s, e) && (e.Look? || e.TryPark?)
    ensures Handles(s, StepRunner(s, e), e.w, s.workers[e.w].i)
  {
    hide Places;
    hide Handles;
    var w := e.w;
    var j := s.workers[w].i;
    WorkerHolds(s, w, j);
    var f := s.fibers[j];
    assert s.fibers == s.fibers[j := f];
    ToHandles(s, w, j, f, s.free, s.dropped, ParkCas(j));
    ToHandles(s, w, j, Judged(f), s.free, s.dropped, Settling(j, f.st));
    ToHandles(s, w, j, f.(st := Yielded), s.free, s.dropped, Idle);
  }

  lemma FreeingHandles(s: State, e: Event)
    requires Owned(s) && RunnerEnabled(s, e) && (e.Reset? || e.Release?)
    ensures Handles(s, StepRunner(s, e), e.w, s.workers[e.w].i)
  {
    hide Places;
    hide Handles;
    var w := e.w;
    var j := s.workers[w].i;
    WorkerHolds(s, w, j);
    var f := s.fibers[j];
    assert s.fibers == s.fibers[j := f];
    ToHandles(s, w, j, f.(st := Initial, phase := Vacant), s.free, s.dropped, Freeing(j));
    ToHandles(s, w, j, f, s.free + {j}, s.dropped, Idle);
  }

  /** Whether the settling worker puts the fiber back in its own queue. */
  predicate Requeues(s: State, w: nat)
    requires Shape(s) && RunnerEnabled(s, Settle(w))
  {
    s.workers[w].seen == Notified && !LocalFull(s.mesh.locals[w])
  }

  lemma SettleHandles(s: State, w: nat, i: nat)
    requires Owned(s) && RunnerEnabled(s, Settle(w))
    ensures if Requeues(s, w) then WorkerCarries(s, DoSettle(s, w), w, i)
            else Handles(s, DoSettle(s, w), w, s.workers[w].i)
  {
    hide Tasks;
    hide Places;
    hide Handles;
    hide WorkerCarries;
    var j := s.workers[w].i;
    WorkerHolds(s, w, j);
    assert s.fibers == s.fibers[j := s.fibers[j]];
    if Requeues(s, w) {
      PushLocalTasks(s.mesh, w, j);
      WorkerToCarries(s, w, PushLocal(s.mesh, w, j).0, Idle, i);
    } else {
      ToHandles(s, w, j, s.fibers[j], s.free, s.dropped, Resetting(j));
      ToHandles(s, w, j, s.fibers[j], s.free, s.dropped + {j}, Idle);
    }
  }

  lemma DispatchKeepsPlaces(s: State, w: nat, i: nat)
    requires Owned(s) && RunnerEnabled(s, Dispatch(w))
    ensures Places(StepRunner(s, Dispatch(w)), i) == Places(s, i)
  {
    hide Tasks;
    hide WorkersHave;
    var j := s.mesh.locals[w][0];
    TakeLocalTasks(s.mesh, w);
    WorkersUpdate(s.workers, w, Run(j), i);
  }

  lemma SettleKeepsPlaces(s: State, w: nat, i: nat)
    requires Owned(s) && RunnerEnabled(s, Settle(w))
    ensures Places(StepRunner(s, Settle(w)), i) == Places(s, i)
  {
    hide Places;
    hide DoSettle;
    SettleHandles(s, w, i);
    if Requeues(s, w) {
      WorkerCarriesKeepsPlaces(s, DoSettle(s, w), w, i);
    } else {
      HandlesKeepsPlaces(s, DoSettle(s, w), w, s.workers[w].i, i);
    }
  }

  lemma RunnerStepKeepsPlaces(s: State, e: Event, i: nat)
    requires Owned(s) && RunnerEnabled(s, e)
    ensures Places(StepRunner(s, e), i) == Places(s, i)
  {
    hide Places;
    hide StepRunner;
    match e
    case Dispatch(w) => DispatchKeepsPlaces(s, w, i);
    case Settle(w) => SettleKeepsPlaces(s, w, i);
    case Act(w, act) =>
      ActHandles(s, w, act);
      HandlesKeepsPlaces(s, StepRunner(s, e), w, s.workers[w].i, i);
    case Look(w) =>
      LookHandles(s, e);
      HandlesKeepsPlaces(s, StepRunner(s, e), w, s.workers[w].i, i);
    case TryPark(w) =>
      LookHandles(s, e);
      HandlesKeepsPlaces(s, StepRunner(s, e), w, s.workers[w].i, i);
    case Reset(w) =>
      FreeingHandles(s, e);
      HandlesKeepsPlaces(s, StepRunner(s, e), w, s.workers[w].i, i);
    case Release(w) =>
      FreeingHandles(s, e);
      HandlesKeepsPlaces(s, StepRunner(s, e), w, s.workers[w].i, i);
    case _ =>
  }

  lemma StepKeepsOwned(s: State, e: Event)
    requires Owned(s) && Enabled(s, e)
    ensures Owned(Step(s, e))
  {
    hide Places;
    forall i: nat ensures Places(Step(s, e), i) == One(i < |s.fibers|) {
      assert Places(s, i) == One(i < |s.fibers|);
      if AgentEnabled(s, e) { AgentStepKeepsPlaces(s, e, i); }
      else if MoverEnabled(s, e) {
        MoverCarries(s, e, i);
        WorkerCarriesKeepsPlaces(s, StepMover(s, e), e.w, i);
      }
      else { RunnerStepKeepsPlaces(s, e, i); }
    }
  }

  lemma {:induction false} RunKeepsOwned(s: State, es: seq<Event>)
    requires Owned(s) && Valid(s, es)
    ensures Owned(Execute(s, es))
    decreases |es|
  {
    if es != [] {
      StepKeepsOwned(s, es[0]);
      RunKeepsOwned(Step(s, es[0]), es[1..]);
    }
  }

  /** In every interleaving of spawning, waking, routing, dispatching, suspending and freeing,
      each context index is in exactly one place: the free list, the mesh, one worker's hands,
      one agent's hands, parked, or dropped by a failed re-enqueue. */
  lemma SingleOwner(n: nat, pool: nat, agents: nat, es: seq<Event>, i: nat)
    requires 0 < n && Valid(Fresh0(n, pool, agents), es)
    ensures Places(Execute(Fresh0(n, pool, agents), es), i) == One(i < pool)
  {
    FreshOwned(n, pool, agents);
    RunKeepsOwned(Fresh0(n, pool, agents), es);
  }

  /** ... so no two workers ever run the same fiber, and a fiber that is running is in no
      queue. */
  lemma NoDoubleDispatch(n: nat, pool: nat, agents: nat, es: seq<Event>, w: nat, u: nat)
    requires 0 < n && Valid(Fresh0(n, pool, agents), es)
    requires var s := Execute(Fresh0(n, pool, agents), es);
             w < |s.workers| && u < |s.workers| && s.workers[w].Run?
    ensures var s := Execute(Fresh0(n, pool, agents), es);
            && (s.workers[u].Run? && s.workers[u].i == s.workers[w].i ==> u == w)
            && Tasks(s.mesh)[s.workers[w].i] == 0
            && s.workers[w].i !in s.free
  {
    var s := Execute(Fresh0(n, pool, agents), es);
    FreshOwned(n, pool, agents);
    RunKeepsOwned(Fresh0(n, pool, agents), es);
    WorkerHolds(s, w, s.workers[w].i);
  }
}
