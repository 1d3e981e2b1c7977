/** Where the scheduler sends tasks and chunks: target selection, the hop loop, the four-way
    router, and what they keep. */
module Routing {
  import opened Arith
  import opened Limits
  import opened Mesh

  // ----- targets -----

  /** `CURRENT_WORKER_ID` as the word the hop formula adds to. */
  function CallerWord(c: Caller): nat {
    match c
    case Worker(id) => id
    case Host => WORD64 - 1
  }

  /** A worker's own column of the matrix is never polled, so a target there is bumped. */
  function OffOwnColumn(n: nat, c: Caller, t: nat): (r: nat)
    requires t < n
    ensures r < n
    ensures 1 < n && c.Worker? ==> r != c.id
    ensures c.Host? || t != c.id ==> r == t
  {
    if c.Worker? && 1 < n && t == c.id then (if t + 1 == n then 0 else t + 1) else t
  }

  /** The target after `hops` deflections: wrapping addition, remainder, own column avoided. */
  function HopTarget(n: nat, c: Caller, hops: nat): (r: nat)
    requires 0 < n
    ensures r < n
    ensures 1 < n && c.Worker? ==> r != c.id
  {
    OffOwnColumn(n, c, ((CallerWord(c) + 1 + hops * 7) % WORD64) % n)
  }

  datatype Affinity = SameCore | SameCCX | SameNUMA | Any

  /** The two hashes of the flow identifier. */
  function FlowShift(flow: nat): nat {
    var x := (flow / 8) % 8;
    flow % 8 + (if x % 2 == 0 then x + 1 else x)
  }

  /** The core inside a group of `size` that the hash points at, or the source itself when it
      is not overloaded. */
  function InGroup(n: nat, source: nat, size: nat, shift: nat, overloaded: bool): (t: nat)
    requires 0 < n && 0 < size
    ensures t < n
  {
    var idx := source % size;
    (source - idx + (if overloaded then (idx + shift) % size else idx)) % n
  }

  /** `enqueue_deflect`'s choice. */
  function DeflectTarget(n: nat, sourceCore: nat, flow: nat, overloaded: bool, global: bool, aff: Affinity): (t: nat)
    requires 0 < n
    ensures t < n
  {
    var source := sourceCore % n;
    if global && aff.Any? then (source + FlowShift(flow)) % n
    else if aff.SameNUMA? then InGroup(n, source, 64, FlowShift(flow), overloaded)
    else InGroup(n, source, 8, FlowShift(flow), overloaded)
  }

  /** Below its threshold a worker keeps its tasks; above it, deflection stays inside the
      core complex (or NUMA node) whenever that group is complete. */
  lemma DeflectStaysInGroup(n: nat, sourceCore: nat, flow: nat, overloaded: bool, global: bool, aff: Affinity)
    requires 0 < n && !(global && aff.Any?)
    ensures var source := sourceCore % n;
            var t := DeflectTarget(n, sourceCore, flow, overloaded, global, aff);
            var size := if aff.SameNUMA? then 64 else 8;
            && (!overloaded ==> t == source)
            && (source - source % size + size <= n ==> t / size == source / size)
            && (source - source % size + size <= n && overloaded ==>
                  t % size == (source % size + FlowShift(flow)) % size)
  {
    var size := if aff.SameNUMA? then 64 else 8;
    InGroupStays(n, sourceCore % n, size, FlowShift(flow), overloaded);
  }

  /** The shift is between 1 and 14, the part that the higher bits add is odd and next to them,
      and flows that differ in their low three bits only are shifted by as much as those differ. */
  lemma FlowsSpread(flow: nat, other: nat)
    ensures 1 <= FlowShift(flow) <= 14
    ensures (FlowShift(flow) - flow % 8) % 2 == 1
    ensures (flow / 8) % 8 <= FlowShift(flow) - flow % 8 <= (flow / 8) % 8 + 1
    ensures flow / 8 == other / 8 ==> FlowShift(flow) - FlowShift(other) == flow % 8 - other % 8 == flow - other
  {
    var x := (flow / 8) % 8;
    assert FlowShift(flow) == flow % 8 + (if x % 2 == 0 then x + 1 else x);
    assert flow == 8 * (flow / 8) + flow % 8 && other == 8 * (other / 8) + other % 8;
  }

  lemma ShiftLands(n: nat, source: nat, shift: nat)
    requires source < n
    ensures ((source + shift) % n - source - shift) % n == 0
    ensures 0 < shift < n ==> (source + shift) % n != source
  {
    var x: int := source + shift;
    ModAddMod(x, -x, n);
    if 0 < shift < n && x % n == source {
      ModSmall(source, n);
      ModInjective(x, source, n);
    }
  }

  lemma ShiftsApart(n: nat, source: nat, shift: nat, other: nat)
    requires 0 < n && shift != other && shift < other + n && other < shift + n
    ensures (source + shift) % n != (source + other) % n
  {
    if (source + shift) % n == (source + other) % n { ModInjective(source + shift, source + other, n); }
  }

  /** Without locality the target is as far after the source as the flow says: with more than 14
      workers never the source itself, and with 8 or more a different one for each of eight
      neighbouring flows. */
  lemma GlobalDeflects(n: nat, sourceCore: nat, flow: nat, other: nat, overloaded: bool)
    requires 0 < n
    ensures var source, t := sourceCore % n, DeflectTarget(n, sourceCore, flow, overloaded, true, Any);
            && (t - source - FlowShift(flow)) % n == 0
            && (14 < n ==> t != source)
            && (8 <= n && flow / 8 == other / 8 && flow != other ==>
                  t != DeflectTarget(n, sourceCore, other, overloaded, true, Any))
  {
    FlowsSpread(flow, other);
    FlowsSpread(other, flow);
    hide FlowShift;
    var source, a, b := sourceCore % n, FlowShift(flow), FlowShift(other);
    assert DeflectTarget(n, sourceCore, flow, overloaded, true, Any) == (source + a) % n;
    assert DeflectTarget(n, sourceCore, other, overloaded, true, Any) == (source + b) % n;
    hide DeflectTarget;
    ShiftLands(n, source, a);
    if 8 <= n && flow / 8 == other / 8 && flow != other { ShiftsApart(n, source, a, b); }
  }

  lemma InGroupStays(n: nat, source: nat, size: nat, shift: nat, overloaded: bool)
    requires source < n && 0 < size
    ensures var t := InGroup(n, source, size, shift, overloaded);
            && (!overloaded ==> t == source)
            && (source - source % size + size <= n ==>
                  t / size == source / size && (overloaded ==> t % size == (source % size + shift) % size))
  {
    var idx := source % size;
    var at := if overloaded then (idx + shift) % size else idx;
    assert source == (source / size) * size + idx;
    DivModUnique(source - idx + at, source / size, at, size);
    if source - idx + at < n { ModSmall(source - idx + at, n); }
  }

  // ----- whole calls -----

  /** `push_chunk_with_hop`: try the target, then hop until `MaxHops`, then park.  The
      boolean is false only where the source panics on warehouse overflow. */
  function PushChunk(m: Mesh, c: Caller, t: nat, chunk: Chunk): (r: (Mesh, bool))
    requires m.Shape() && CallerOk(m, c) && t < m.Workers()
    ensures r.0.Shape() && r.0.Workers() == m.Workers()
    decreases MaxHops(m.Workers()) - chunk.hops
  {
    var r := Post(m, c, t, chunk);
    if r.1 then r
    else if chunk.hops >= MaxHops(m.Workers()) then Park(m, chunk)
    else
      var k := chunk.(hops := chunk.hops + 1);
      PushChunk(m, c, HopTarget(m.Workers(), c, k.hops), k)
  }

  function EnqueuePinned(m: Mesh, c: Caller, core: nat, task: Task): (r: (Mesh, bool))
    requires m.Shape() && CallerOk(m, c)
    ensures r.0.Shape() && r.0.Workers() == m.Workers()
  {
    var target := core % m.Workers();
    if c == Worker(target) then PushLocal(m, target, task) else Post(m, c, target, Single(task))
  }

  function EnqueueAt(m: Mesh, c: Caller, target: nat, task: Task): (r: (Mesh, bool))
    requires m.Shape() && CallerOk(m, c) && target < m.Workers()
    ensures r.0.Shape() && r.0.Workers() == m.Workers()
  {
    if c == Worker(target) && PushLocal(m, target, task).1 then PushLocal(m, target, task)
    else PushChunk(m, c, OffOwnColumn(m.Workers(), c, target), Single(task))
  }

  function EnqueueDeflect(m: Mesh, c: Caller, target: nat, task: Task): (r: (Mesh, bool))
    requires m.Shape() && CallerOk(m, c) && target < m.Workers()
    ensures r.0.Shape() && r.0.Workers() == m.Workers()
  {
    if m.ware != [] then Park(m, Chunk([task], HOPS_EXHAUSTED)) else EnqueueAt(m, c, target, task)
  }

  predicate SpaceOk(m: Mesh, w: nat, chunk: Chunk)
    requires m.Shape() && w < m.Workers()
  {
    |m.locals[w]| + |chunk.tasks| <= LOCAL_QUEUE_HIGH_WATERMARK
  }

  function RouteDeflect(m: Mesh, w: nat, chunk: Chunk): (r: (Mesh, bool))
    requires m.Shape() && w < m.Workers()
    ensures r.0.Shape() && r.0.Workers() == m.Workers()
  {
    var k := chunk.(hops := Min(chunk.hops + 1, HOPS_EXHAUSTED));
    var r := Post(m, Worker(w), HopTarget(m.Workers(), Worker(w), k.hops), k);
    if r.1 then r else Park(m, k)
  }

  /** The four-way router, applied by worker `w` to a chunk it has taken out of a mailbox. */
  function RouteChunk(m: Mesh, w: nat, chunk: Chunk): (r: (Mesh, bool))
    requires m.Shape() && w < m.Workers()
    ensures r.0.Shape() && r.0.Workers() == m.Workers()
  {
    if SpaceOk(m, w, chunk) then (PushBatch(m, w, chunk), true)
    else if chunk.hops < MaxHops(m.Workers()) then RouteDeflect(m, w, chunk)
    else Park(m, chunk)
  }

  // ----- conservation -----

  lemma {:induction false} PushChunkConserves(m: Mesh, c: Caller, t: nat, chunk: Chunk)
    requires m.Shape() && CallerOk(m, c) && t < m.Workers()
    ensures var r := PushChunk(m, c, t, chunk);
            Tasks(r.0) == if r.1 then Tasks(m) + multiset(chunk.tasks) else Tasks(m)
    decreases MaxHops(m.Workers()) - chunk.hops
  {
    hide Tasks;
    PostTasks(m, c, t, chunk);
    if !Post(m, c, t, chunk).1 {
      if chunk.hops >= MaxHops(m.Workers()) {
        ParkTasks(m, chunk);
      } else {
        var k := chunk.(hops := chunk.hops + 1);
        PushChunkConserves(m, c, HopTarget(m.Workers(), c, k.hops), k);
      }
    }
  }

  /** An enqueue adds its task exactly once, or reports failure and changes nothing. */
  lemma EnqueueAddsOnce(m: Mesh, c: Caller, core: nat, task: Task, pinned: bool)
    requires m.Shape() && CallerOk(m, c) && (!pinned ==> core < m.Workers())
    ensures var r := if pinned then EnqueuePinned(m, c, core, task) else EnqueueDeflect(m, c, core, task);
            && Tasks(r.0) == (if r.1 then Tasks(m) + multiset{task} else Tasks(m))
            && (!r.1 ==> r.0 == m)
  {
    hide Tasks;
    if pinned {
      PushLocalTasks(m, core % m.Workers(), task);
      PostTasks(m, c, core % m.Workers(), Single(task));
    } else {
      ParkTasks(m, Chunk([task], HOPS_EXHAUSTED));
      PushLocalTasks(m, core, task);
      PushChunkConserves(m, c, OffOwnColumn(m.Workers(), c, core), Single(task));
      FailedPushChangesNothing(m, c, OffOwnColumn(m.Workers(), c, core), Single(task));
    }
  }

  lemma {:induction false} FailedPushChangesNothing(m: Mesh, c: Caller, t: nat, chunk: Chunk)
    requires m.Shape() && CallerOk(m, c) && t < m.Workers()
    ensures !PushChunk(m, c, t, chunk).1 ==> PushChunk(m, c, t, chunk).0 == m && WarehouseFull(m.ware)
    decreases MaxHops(m.Workers()) - chunk.hops
  {
    if !Post(m, c, t, chunk).1 && chunk.hops < MaxHops(m.Workers()) {
      var k := chunk.(hops := chunk.hops + 1);
      FailedPushChangesNothing(m, c, HopTarget(m.Workers(), c, k.hops), k);
    }
  }

  /** Taking a chunk out of a mailbox and routing it leaves the tasks of the mesh as they were. */
  lemma PollConserves(m: Mesh, from: Caller, w: nat)
    requires m.Shape() && CallerOk(m, from) && w < m.Workers() && Inbox(m, from, w) != []
    requires RouteChunk(SetInbox(m, from, w, Inbox(m, from, w)[1..]), w, Inbox(m, from, w)[0]).1
    ensures Tasks(RouteChunk(SetInbox(m, from, w, Inbox(m, from, w)[1..]), w, Inbox(m, from, w)[0]).0) == Tasks(m)
  {
    TakeInboxTasks(m, from, w);
    RouteAdds(SetInbox(m, from, w, Inbox(m, from, w)[1..]), w, Inbox(m, from, w)[0]);
  }

  lemma RouteAdds(m: Mesh, w: nat, chunk: Chunk)
    requires m.Shape() && w < m.Workers()
    ensures var r := RouteChunk(m, w, chunk);
            Tasks(r.0) == if r.1 then Tasks(m) + multiset(chunk.tasks) else Tasks(m)
  {
    hide Tasks;
    if SpaceOk(m, w, chunk) {
      PushBatchTasks(m, w, chunk);
    } else if chunk.hops < MaxHops(m.Workers()) {
      var k := chunk.(hops := Min(chunk.hops + 1, HOPS_EXHAUSTED));
      PostTasks(m, Worker(w), HopTarget(m.Workers(), Worker(w), k.hops), k);
      ParkTasks(m, k);
    } else {
      ParkTasks(m, chunk);
    }
  }

  lemma DrainConserves(m: Mesh, w: nat)
    requires m.Shape() && w < m.Workers() && m.ware != []
    ensures Tasks(PushBatch(m.(ware := m.ware[1..]), w, m.ware[0])) == Tasks(m)
  {
    TakeWareTasks(m);
    PushBatchTasks(m.(ware := m.ware[1..]), w, m.ware[0]);
  }

  // ----- bounded routing -----

  datatype Place = InMail(hops: nat) | InWarehouse | InLocal

  /** The moves the router and the warehouse drain make with a chunk. */
  predicate Moves(maxHops: nat, a: Place, b: Place) {
    match a
    case InMail(h) => b.InLocal? || b.InWarehouse? || (b == InMail(h + 1) && h < maxHops)
    case InWarehouse => b.InLocal?
    case InLocal => false
  }

  /** The mesh `r` is `m` with the chunk's tasks added at place `b` by worker `w`. */
  predicate Landed(m: Mesh, r: Mesh, w: nat, chunk: Chunk, b: Place)
    requires m.Shape() && w < m.Workers()
  {
    match b
    case InLocal => r == SetLocal(m, w, m.locals[w] + chunk.tasks)
    case InMail(h) =>
      exists t :: 0 <= t < m.Workers() && (1 < m.Workers() ==> t != w)
                  && r == SetMail(m, w, t, m.mail[w][t] + [Chunk(chunk.tasks, h)])
    case InWarehouse =>
      && |r.ware| == |m.ware| + 1 && r == m.(ware := r.ware)
      && r.ware[..|m.ware|] == m.ware && r.ware[|m.ware|].tasks == chunk.tasks
  }

  /** Unless the warehouse overflows, the router makes one of these moves, and the move is
      into the worker's own queue exactly when the chunk fits under the watermark. */
  lemma RouterMoves(m: Mesh, w: nat, chunk: Chunk) returns (b: Place)
    requires m.Shape() && w < m.Workers() && RouteChunk(m, w, chunk).1
    ensures Moves(MaxHops(m.Workers()), InMail(chunk.hops), b)
    ensures Landed(m, RouteChunk(m, w, chunk).0, w, chunk, b)
    ensures b.InLocal? <==> SpaceOk(m, w, chunk)
  {
    assert MaxHops(m.Workers()) <= HOPS_EXHAUSTED;
    var k := chunk.(hops := chunk.hops + 1);
    var t := HopTarget(m.Workers(), Worker(w), k.hops);
    b := if SpaceOk(m, w, chunk) then InLocal
         else if chunk.hops < MaxHops(m.Workers()) && Post(m, Worker(w), t, k).1 then InMail(k.hops)
         else InWarehouse;
  }

  /** What strictly decreases with every move. */
  function Distance(maxHops: nat, a: Place): int {
    match a
    case InMail(h) => if h <= maxHops then maxHops - h + 2 else 2
    case InWarehouse => 1
    case InLocal => 0
  }

  lemma MovesApproachLocal(maxHops: nat, a: Place, b: Place)
    requires Moves(maxHops, a, b)
    ensures 0 <= Distance(maxHops, b) < Distance(maxHops, a)
  {
  }

  // ----- the hop loop is first fit -----

  /** The mailbox that the hop loop tries when the chunk has made `h` of its hops, having
      started at `t` with `first`. */
  function Probe(n: nat, c: Caller, t: nat, first: nat, h: nat): (r: nat)
    requires t < n
    ensures r < n
  {
    if h == first then t else HopTarget(n, c, h)
  }

  /** The chunk goes, with the number of hops it took, into the first mailbox with room along
      the probe sequence; it is parked only when all of them up to `MaxHops` are full. */
  lemma {:induction false} HopsAreFirstFit(m: Mesh, c: Caller, t: nat, chunk: Chunk) returns (h: nat)
    requires m.Shape() && CallerOk(m, c) && t < m.Workers() && chunk.hops <= MaxHops(m.Workers())
    ensures chunk.hops <= h <= MaxHops(m.Workers()) + 1
    ensures forall k :: chunk.hops <= k < h ==> MailboxFull(Inbox(m, c, Probe(m.Workers(), c, t, chunk.hops, k)))
    ensures var r, target := PushChunk(m, c, t, chunk), Probe(m.Workers(), c, t, chunk.hops, h);
            if h <= MaxHops(m.Workers()) then
              var q := Inbox(m, c, target);
              !MailboxFull(q) && r == (SetInbox(m, c, target, q + [chunk.(hops := h)]), true)
            else r == Park(m, chunk.(hops := MaxHops(m.Workers())))
    decreases MaxHops(m.Workers()) - chunk.hops
  {
    hide HopTarget;
    hide MaxHops;
    hide SetInbox;
    hide Inbox;
    hide MailboxFull;
    h := chunk.hops;
    if MailboxFull(Inbox(m, c, t)) {
      if chunk.hops == MaxHops(m.Workers()) {
        h := h + 1;
      } else {
        var next := chunk.(hops := chunk.hops + 1);
        var n := m.Workers();
        h := HopsAreFirstFit(m, c, HopTarget(n, c, next.hops), next);
        forall k | chunk.hops <= k < h ensures MailboxFull(Inbox(m, c, Probe(n, c, t, chunk.hops, k))) {
          if k > chunk.hops {
            assert Probe(n, c, t, chunk.hops, k) == Probe(n, c, HopTarget(n, c, next.hops), next.hops, k);
          }
        }
      }
    }
  }


  // ----- the column nobody polls -----

  ghost predicate OwnColumnsEmpty(m: Mesh)
    requires m.Shape()
  {
    forall p :: 0 <= p < m.Workers() ==> m.mail[p][p] == []
  }

  lemma PostKeepsOwnColumns(m: Mesh, c: Caller, t: nat, chunk: Chunk)
    requires m.Shape() && OwnColumnsEmpty(m) && CallerOk(m, c) && t < m.Workers() && c != Worker(t)
    ensures OwnColumnsEmpty(Post(m, c, t, chunk).0)
  {
  }

  lemma {:induction false} PushChunkKeepsOwnColumns(m: Mesh, c: Caller, t: nat, chunk: Chunk)
    requires m.Shape() && OwnColumnsEmpty(m) && CallerOk(m, c) && t < m.Workers() && 1 < m.Workers() && c != Worker(t)
    ensures OwnColumnsEmpty(PushChunk(m, c, t, chunk).0)
    decreases MaxHops(m.Workers()) - chunk.hops
  {
    PostKeepsOwnColumns(m, c, t, chunk);
    if !Post(m, c, t, chunk).1 && chunk.hops < MaxHops(m.Workers()) {
      var k := chunk.(hops := chunk.hops + 1);
      PushChunkKeepsOwnColumns(m, c, HopTarget(m.Workers(), c, k.hops), k);
    }
  }

  /** With at least two workers no call ever puts a chunk where no worker looks. */
  lemma NothingStranded(m: Mesh, c: Caller, core: nat, task: Task, pinned: bool, w: nat, chunk: Chunk)
    requires m.Shape() && OwnColumnsEmpty(m) && CallerOk(m, c) && 1 < m.Workers()
    requires w < m.Workers() && (!pinned ==> core < m.Workers())
    ensures OwnColumnsEmpty((if pinned then EnqueuePinned(m, c, core, task) else EnqueueDeflect(m, c, core, task)).0)
    ensures OwnColumnsEmpty(RouteChunk(m, w, chunk).0)
  {
    if pinned {
      if c != Worker(core % m.Workers()) { PostKeepsOwnColumns(m, c, core % m.Workers(), Single(task)); }
    } else {
      PushChunkKeepsOwnColumns(m, c, OffOwnColumn(m.Workers(), c, core), Single(task));
    }
    var k := chunk.(hops := Min(chunk.hops + 1, HOPS_EXHAUSTED));
    PostKeepsOwnColumns(m, Worker(w), HopTarget(m.Workers(), Worker(w), k.hops), k);
  }

  /** With a single worker the guard against the own column is off: once its queue is full,
      the worker's own enqueue goes into the mailbox that nobody polls. */
  lemma SingleWorkerStrands(m: Mesh, task: Task)
    requires m.Shape() && m.Workers() == 1 && m.ware == [] && OwnColumnsEmpty(m)
    ensures !OwnColumnsEmpty(EnqueueDeflect(m, Worker(0), 0, task).0) <==> LocalFull(m.locals[0])
  {
    assert m.mail[0][0] == [];
    if LocalFull(m.locals[0]) {
      assert EnqueueDeflect(m, Worker(0), 0, task).0.mail[0][0] == [Single(task)];
    }
  }
}
