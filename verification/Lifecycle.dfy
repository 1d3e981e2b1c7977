/** The fiber lifecycle together with the scheduler mesh: spawners, wakers, dispatching
    workers and the fibers they run, interleaved one shared access at a time.

    `agents` are the call stacks that spawn or wake fibers: host threads, or code running
    inside fibers, in any number.  History, which no step reads: the flags of the open `waits`,
    `late` (a wake or a back-pressure yield overwrote Finished), `misread` (its dispatcher read
    Notified after it had ended), `strayed` (a wake found it Yielded and carried the core of
    another worker), `ran` (workers that have run this incarnation), `issued` (cores that
    handles and waiter entries of this context may carry, whatever the incarnation), `dropped`
    (indices whose re-enqueue failed), `rejected` (some push has failed), `parked` (the
    warehouse has been used).  The last two only bound choices the environment makes: see
    `Enabled`. */
module Lifecycle {
  import opened Arith
  import opened Limits
  import opened Mesh
  import R = Routing
  import opened FiberStatus

  /** Where the fiber's own code is, or will continue: running (`Polling`: inside a poll, or
      between waits), at the top of a wait loop (`AtLoad`, `AtStore`), before the suspending
      exchange, about to switch out, after storing Finished, or past its end. */
  datatype Phase = Vacant | Fresh | AtLoad | AtStore | Polling | AtCas | AtSwitch | Ending | Over | Resumed

  /** One wait loop the fiber's code is inside.  Since its latest poll began: a wake has landed
      (`woken`); every such wake was overwritten by a wait nested in that poll (`erased`); a
      nested wait has begun (`nested`). */
  datatype Wait = Wait(woken: bool, erased: bool, nested: bool)

  /** `waits` are the open waits, outermost first. */
  datatype Fiber = Fiber(
    st: Status,
    phase: Phase,
    pinned: bool,
    origin: nat,
    waits: seq<Wait>,
    late: bool,
    misread: bool,
    strayed: bool,
    ran: set<nat>,
    issued: set<nat>)

  datatype WorkerPc =
    | Idle
    | Routing(chunk: Chunk)
    | Stowing(chunk: Chunk)
    | Parking(chunk: Chunk)
    | Run(i: nat)
    | Back(i: nat)
    | ParkCas(i: nat)
    | Settling(i: nat, seen: Status)
    | Resetting(i: nat)
    | Freeing(i: nat)

  datatype AgentPc =
    | Rest
    | Spawning(i: nat)
    | Enqueuing(i: nat, core: nat)
    | Hopping(chunk: Chunk, caller: Caller, target: nat)
    | Diverting(chunk: Chunk)

  datatype State = State(
    mesh: Mesh,
    fibers: seq<Fiber>,
    free: set<nat>,
    workers: seq<WorkerPc>,
    agents: seq<AgentPc>,
    dropped: set<nat>,
    rejected: bool,
    parked: bool)

  /** What the code of a running fiber does next: enter a wait loop, perhaps inside the poll of
      another; load the state at its top; store Running (after that load, or outright, as
      `dtact_await` does with a swap); poll again while spinning, the state left alone; return
      from the innermost wait; find its poll pending; end, once out of all waits; try to
      suspend; switch out; yield cooperatively by storing Notified; leave for good; yield while
      waking its joiner. */
  datatype FiberAct =
    Begin | Load | Store | Repoll | Return | Pend | Ready | Cas | Switch | Yield | Exit | YieldEnding

  datatype Event =
    // agents
    | Spawn(a: nat, f: nat)
    | Publish(a: nat, pin: bool, home: nat)
    | Wake(a: nat, f: nat, core: nat)
    | Enqueue(a: nat, caller: Caller, busy: bool, target: nat)
    | Hop(a: nat)
    | Divert(a: nat)
    // workers, between fibers
    | Poll(w: nat, from: Caller)
    | Drain(w: nat)
    | Route(w: nat)
    | Stow(w: nat)
    | ParkChunk(w: nat)
    // workers and fibers
    | Dispatch(w: nat)
    | Act(w: nat, act: FiberAct)
    | Look(w: nat)
    | TryPark(w: nat)
    | Settle(w: nat)
    | Reset(w: nat)
    | Release(w: nat)

  predicate Shape(s: State) {
    s.mesh.Shape() && |s.workers| == s.mesh.Workers()
  }

  /** The machine's dimensions never change. */
  predicate SameSize(s: State, s': State) {
    Shape(s') && s'.mesh.Workers() == s.mesh.Workers() && |s'.fibers| == |s.fibers| && |s'.agents| == |s.agents|
  }

  function Blank(): Fiber { Fiber(Initial, Vacant, false, 0, [], false, false, false, {}, {}) }

  /** A new incarnation of the context: its handle carries the spawner's core. */
  function Born(was: Fiber, pin: bool, home: nat): Fiber {
    Fiber(Running, Fresh, pin, home, [], false, false, false, {}, was.issued + {home})
  }

  /** A pool of `pool` contexts, all free, `n` workers and any number of agents. */
  function Fresh0(n: nat, pool: nat, agents: nat): (s: State)
    requires 0 < n
    ensures Shape(s)
  {
    State(EmptyMesh(n), seq(pool, _ => Blank()), set i | i in Upto(pool),
          seq(n, _ => Idle), seq(agents, _ => Rest), {}, false, false)
  }

  // ----- agents -----

  predicate AgentEnabled(s: State, e: Event)
    requires Shape(s)
  {
    match e
    case Spawn(a, f) => a < |s.agents| && s.agents[a].Rest? && f in s.free && f < |s.fibers|
    case Publish(a, _, home) =>
      a < |s.agents| && s.agents[a].Spawning? && s.agents[a].i < |s.fibers| && home < s.mesh.Workers()
    case Wake(a, f, core) => a < |s.agents| && s.agents[a].Rest? && f < |s.fibers|
    case Enqueue(a, caller, busy, target) =>
      && a < |s.agents| && s.agents[a].Enqueuing? && s.agents[a].i < |s.fibers|
      && CallerOk(s.mesh, caller) && target < s.mesh.Workers() && (busy ==> s.parked)
    case Hop(a) =>
      && a < |s.agents| && s.agents[a].Hopping?
      && CallerOk(s.mesh, s.agents[a].caller) && s.agents[a].target < s.mesh.Workers()
    case Divert(a) => a < |s.agents| && s.agents[a].Diverting? && !WarehouseFull(s.mesh.ware)
    case _ => false
  }

  function AgentTo(s: State, a: nat, pc: AgentPc): State
    requires a < |s.agents|
  {
    s.(agents := s.agents[a := pc])
  }

  /** An agent's push succeeded, or it is rejected and the agent goes on at `retry`. */
  function AgentPush(s: State, a: nat, r: (Mesh, bool), retry: AgentPc): State
    requires a < |s.agents|
  {
    if r.1 then AgentTo(s.(mesh := r.0), a, Rest) else AgentTo(s.(rejected := true), a, retry)
  }

  /** Every open wait has a wake to answer. */
  function AllWoken(ws: seq<Wait>): (r: seq<Wait>)
    ensures |r| == |ws| && forall k :: 0 <= k < |ws| ==> r[k] == Wait(true, false, ws[k].nested)
  {
    if ws == [] then [] else AllWoken(ws[..|ws| - 1]) + [Wait(true, false, ws[|ws| - 1].nested)]
  }

  /** The fiber after a wake that carries `core`, on `n` workers. */
  function Woken(f: Fiber, n: nat, core: nat): Fiber
    requires 0 < n
  {
    f.(st := Notified,
       waits := AllWoken(f.waits),
       late := f.late || f.st == Finished,
       strayed := f.strayed || (f.st == Yielded && core % n != f.origin))
  }

  function DoWake(s: State, a: nat, f: nat, core: nat): State
    requires Shape(s) && a < |s.agents| && f < |s.fibers|
  {
    var was := s.fibers[f];
    var s' := s.(fibers := s.fibers[f := Woken(was, s.mesh.Workers(), core)]);
    if was.st == Yielded then AgentTo(s', a, Enqueuing(f, core)) else s'
  }

  function DoEnqueue(s: State, a: nat, caller: Caller, busy: bool, target: nat): (s': State)
    requires Shape(s) && AgentEnabled(s, Enqueue(a, caller, busy, target))
    ensures SameSize(s, s')
  {
    var Enqueuing(i, core) := s.agents[a];
    var n := s.mesh.Workers();
    if s.fibers[i].pinned then
      var t := core % n;
      if caller == Worker(t) then AgentPush(s, a, PushLocal(s.mesh, t, i), s.agents[a])
      else AgentPush(s, a, Post(s.mesh, caller, t, Single(i)), s.agents[a])
    else if busy then AgentTo(s, a, Diverting(Chunk([i], HOPS_EXHAUSTED)))
    else
      var hop := Hopping(Single(i), caller, R.OffOwnColumn(n, caller, target));
      if caller == Worker(target) then AgentPush(s, a, PushLocal(s.mesh, target, i), hop) else AgentTo(s, a, hop)
  }

  function DoHop(s: State, a: nat): (s': State)
    requires Shape(s) && AgentEnabled(s, Hop(a))
    ensures SameSize(s, s')
  {
    var Hopping(chunk, caller, target) := s.agents[a];
    var n := s.mesh.Workers();
    var next := chunk.(hops := chunk.hops + 1);
    AgentPush(s, a, Post(s.mesh, caller, target, chunk),
              if chunk.hops >= MaxHops(n) then Diverting(chunk)
              else Hopping(next, caller, R.HopTarget(n, caller, next.hops)))
  }

  function StepAgent(s: State, e: Event): (s': State)
    requires Shape(s) && AgentEnabled(s, e)
    ensures SameSize(s, s')
  {
    match e
    case Spawn(a, f) => AgentTo(s.(free := s.free - {f}), a, Spawning(f))
    case Publish(a, pin, home) =>
      var i := s.agents[a].i;
      AgentTo(s.(fibers := s.fibers[i := Born(s.fibers[i], pin, home)]), a, Enqueuing(i, home))
    case Wake(a, f, core) => DoWake(s, a, f, core)
    case Enqueue(a, caller, busy, target) => DoEnqueue(s, a, caller, busy, target)
    case Hop(a) => DoHop(s, a)
    case Divert(a) => AgentTo(s.(mesh := Park(s.mesh, s.agents[a].chunk).0, parked := true), a, Rest)
    case _ => s
  }

  // ----- workers moving chunks -----

  predicate MoverEnabled(s: State, e: Event)
    requires Shape(s)
  {
    match e
    case Poll(w, from) =>
      && w < |s.workers| && s.workers[w].Idle? && CallerOk(s.mesh, from) && from != Worker(w)
      && Inbox(s.mesh, from, w) != [] && |s.mesh.locals[w]| + CHUNK_SIZE < LOCAL_QUEUE_CAPACITY
    case Drain(w) =>
      && w < |s.workers| && s.workers[w].Idle? && s.mesh.ware != []
      && |s.mesh.locals[w]| + CHUNK_SIZE <= LOCAL_QUEUE_HIGH_WATERMARK
    case Route(w) => w < |s.workers| && s.workers[w].Routing?
    case Stow(w) => w < |s.workers| && s.workers[w].Stowing?
    case ParkChunk(w) => w < |s.workers| && s.workers[w].Parking? && !WarehouseFull(s.mesh.ware)
    case _ => false
  }

  function WorkerTo(s: State, w: nat, pc: WorkerPc): State
    requires w < |s.workers|
  {
    s.(workers := s.workers[w := pc])
  }

  function DoRoute(s: State, w: nat): (s': State)
    requires Shape(s) && MoverEnabled(s, Route(w))
    ensures SameSize(s, s')
  {
    var chunk := s.workers[w].chunk;
    var n := s.mesh.Workers();
    if R.SpaceOk(s.mesh, w, chunk) then WorkerTo(s.(mesh := PushBatch(s.mesh, w, chunk)), w, Idle)
    else if chunk.hops < MaxHops(n) then
      var k := chunk.(hops := Min(chunk.hops + 1, HOPS_EXHAUSTED));
      var r := Post(s.mesh, Worker(w), R.HopTarget(n, Worker(w), k.hops), k);
      if r.1 then WorkerTo(s.(mesh := r.0), w, Idle) else WorkerTo(s.(rejected := true), w, Parking(k))
    else WorkerTo(s, w, Parking(chunk))
  }

  function StepMover(s: State, e: Event): (s': State)
    requires Shape(s) && MoverEnabled(s, e)
    ensures SameSize(s, s')
  {
    match e
    case Poll(w, from) =>
      var q := Inbox(s.mesh, from, w);
      WorkerTo(s.(mesh := SetInbox(s.mesh, from, w, q[1..])), w, Routing(q[0]))
    case Drain(w) => WorkerTo(s.(mesh := s.mesh.(ware := s.mesh.ware[1..])), w, Stowing(s.mesh.ware[0]))
    case Route(w) => DoRoute(s, w)
    case Stow(w) => WorkerTo(s.(mesh := PushBatch(s.mesh, w, s.workers[w].chunk)), w, Idle)
    case ParkChunk(w) => WorkerTo(s.(mesh := Park(s.mesh, s.workers[w].chunk).0, parked := true), w, Idle)
    case _ => s
  }

  // ----- workers running fibers -----

  predicate CanAct(s: State, f: Fiber, act: FiberAct) {
    match act
    case Begin => f.phase == Polling
    case Load => f.phase == AtLoad
    case Store => f.phase == AtStore || f.phase == AtLoad
    case Repoll => f.phase == Polling && f.waits != []
    case Return => f.phase == Polling && f.waits != []
    case Pend => f.phase == Polling && f.waits != []
    case Ready => f.phase == Polling && f.waits == []
    case Yield => f.phase == Polling
    case Cas => f.phase == AtCas
    case Switch => f.phase == AtSwitch
    case Exit => f.phase == Ending
    case YieldEnding => f.phase == Ending && s.rejected
  }

  predicate RunnerEnabled(s: State, e: Event)
    requires Shape(s)
  {
    match e
    case Dispatch(w) =>
      w < |s.workers| && s.workers[w].Idle? && s.mesh.locals[w] != [] && s.mesh.locals[w][0] < |s.fibers|
    case Act(w, act) =>
      w < |s.workers| && s.workers[w].Run? && s.workers[w].i < |s.fibers| && CanAct(s, s.fibers[s.workers[w].i], act)
    case Look(w) => w < |s.workers| && s.workers[w].Back? && s.workers[w].i < |s.fibers|
    case TryPark(w) => w < |s.workers| && s.workers[w].ParkCas? && s.workers[w].i < |s.fibers|
    case Settle(w) => w < |s.workers| && s.workers[w].Settling?
    case Reset(w) => w < |s.workers| && s.workers[w].Resetting? && s.workers[w].i < |s.fibers|
    case Release(w) => w < |s.workers| && s.workers[w].Freeing?
    case _ => false
  }

  /** A wait begins: the poll it is in, if any, now has a nested wait. */
  function Opened(ws: seq<Wait>): seq<Wait> {
    (if ws == [] then [] else ws[|ws| - 1 := ws[|ws| - 1].(nested := true)]) + [Wait(false, false, false)]
  }

  /** The innermost wait begins a poll. */
  function Polled(ws: seq<Wait>): seq<Wait> {
    if ws == [] then [] else ws[|ws| - 1 := Wait(false, false, false)]
  }

  /** No wake that landed before is in the state word any more. */
  function AllErased(ws: seq<Wait>): (r: seq<Wait>)
    ensures |r| == |ws| && forall k :: 0 <= k < |ws| ==> r[k] == ws[k].(erased := ws[k].woken)
  {
    if ws == [] then [] else AllErased(ws[..|ws| - 1]) + [ws[|ws| - 1].(erased := ws[|ws| - 1].woken)]
  }

  /** The effect of the fiber's action on its own context, and whether it leaves the CPU. */
  function ActOn(f: Fiber, act: FiberAct): (Fiber, bool) {
    match act
    case Begin => (f.(phase := AtLoad, waits := Opened(f.waits)), false)
    case Load =>
      (if f.st == Running then f.(phase := Polling, waits := Polled(f.waits)) else f.(phase := AtStore), false)
    case Store => (f.(st := Running, phase := Polling, waits := Polled(AllErased(f.waits))), false)
    case Repoll => (f.(waits := Polled(f.waits)), false)
    case Return => (if f.waits == [] then f else f.(waits := f.waits[..|f.waits| - 1]), false)
    case Pend => (f.(phase := AtCas), false)
    case Ready => (f.(st := Finished, phase := Ending), false)
    case Yield => (f.(st := Notified), true)
    case Cas => (if f.st == Running then f.(st := Suspending, phase := AtSwitch) else f.(phase := AtLoad), false)
    case Switch => (f.(phase := AtLoad), true)
    case Exit => (f.(phase := Over), true)
    case YieldEnding => (f.(st := Notified, late := true), true)
  }

  function Entered(f: Fiber, w: nat): Fiber {
    f.(ran := f.ran + {w},
       issued := f.issued + {w},
       phase := if f.phase == Fresh then Polling else if f.phase == Over then Resumed else f.phase)
  }

  /** The dispatcher has read the state it will act on. */
  function Judged(f: Fiber): Fiber { f.(misread := f.misread || (f.phase == Over && f.st == Notified)) }

  function DoLook(s: State, w: nat, i: nat): (s': State)
    requires Shape(s) && w < |s.workers| && i < |s.fibers|
    ensures SameSize(s, s')
  {
    WorkerTo(s.(fibers := s.fibers[i := Judged(s.fibers[i])]), w, Settling(i, s.fibers[i].st))
  }

  function DoSettle(s: State, w: nat): (s': State)
    requires Shape(s) && RunnerEnabled(s, Settle(w))
    ensures SameSize(s, s')
  {
    var Settling(i, seen) := s.workers[w];
    if seen == Finished || seen == Panicked then WorkerTo(s, w, Resetting(i))
    else if seen == Notified then
      var r := PushLocal(s.mesh, w, i);
      if r.1 then WorkerTo(s.(mesh := r.0), w, Idle)
      else WorkerTo(s.(rejected := true, dropped := s.dropped + {i}), w, Idle)
    else WorkerTo(s.(dropped := s.dropped + {i}), w, Idle)
  }

  function StepRunner(s: State, e: Event): (s': State)
    requires Shape(s) && RunnerEnabled(s, e)
    ensures SameSize(s, s')
  {
    match e
    case Dispatch(w) =>
      var i := s.mesh.locals[w][0];
      var m := SetLocal(s.mesh, w, s.mesh.locals[w][1..]);
      WorkerTo(s.(mesh := m, fibers := s.fibers[i := Entered(s.fibers[i], w)]), w, Run(i))
    case Act(w, act) =>
      var i := s.workers[w].i;
      var r := ActOn(s.fibers[i], act);
      var s' := s.(fibers := s.fibers[i := r.0]);
      if r.1 then WorkerTo(s', w, Back(i)) else s'
    case Look(w) =>
      var i := s.workers[w].i;
      if s.fibers[i].st == Suspending then WorkerTo(s, w, ParkCas(i)) else DoLook(s, w, i)
    case TryPark(w) =>
      var i := s.workers[w].i;
      if s.fibers[i].st == Suspending then
        WorkerTo(s.(fibers := s.fibers[i := s.fibers[i].(st := Yielded)]), w, Idle)
      else DoLook(s, w, i)
    case Settle(w) => DoSettle(s, w)
    case Reset(w) =>
      var i := s.workers[w].i;
      WorkerTo(s.(fibers := s.fibers[i := s.fibers[i].(st := Initial, phase := Vacant)]), w, Freeing(i))
    case Release(w) => WorkerTo(s.(free := s.free + {s.workers[w].i}), w, Idle)
    case _ => s
  }

  // ----- runs -----

  predicate Enabled(s: State, e: Event) {
    Shape(s) && (AgentEnabled(s, e) || MoverEnabled(s, e) || RunnerEnabled(s, e))
  }

  function Step(s: State, e: Event): (s': State)
    requires Enabled(s, e)
    ensures SameSize(s, s')
  {
    if AgentEnabled(s, e) then StepAgent(s, e) else if MoverEnabled(s, e) then StepMover(s, e) else StepRunner(s, e)
  }

  predicate Valid(s: State, es: seq<Event>)
    decreases |es|
  {
    es == [] || (Enabled(s, es[0]) && Valid(Step(s, es[0]), es[1..]))
  }

  function Execute(s: State, es: seq<Event>): (s': State)
    requires Valid(s, es)
    ensures Shape(s) ==> SameSize(s, s')
    decreases |es|
  {
    if es == [] then s else Execute(Step(s, es[0]), es[1..])
  }
}
