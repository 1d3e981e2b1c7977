/** `DtaScheduler` as an object that owns its workers' queues and its mailboxes, each an
    in-place ring.  Its methods, run to completion by one thread, change the mesh exactly as
    the value-level operations say.  Every call that the source ends with the
    warehouse-overflow panic returns `false` here. */
module Scheduler {
  import opened Arith
  import opened Wrappers
  import opened Limits
  import opened Mesh
  import R = Routing
  import opened RingSeq
  import opened WorkerQueues

  /** What draining `k` chunks from the warehouse into worker `w`'s queue leaves. */
  function Drained(m: Mesh, w: nat, k: nat): (r: Mesh)
    requires m.Shape() && w < m.Workers() && k <= |m.ware|
    ensures r.Shape() && r.Workers() == m.Workers()
    decreases k
  {
    if k == 0 then m else Drained(PushBatch(m.(ware := m.ware[1..]), w, m.ware[0]), w, k - 1)
  }

  lemma {:induction false} DrainedOneMore(m: Mesh, w: nat, k: nat)
    requires m.Shape() && w < m.Workers() && k < |m.ware|
    ensures var d := Drained(m, w, k);
            d.ware == m.ware[k..] && Drained(m, w, k + 1) == PushBatch(d.(ware := d.ware[1..]), w, d.ware[0])
    decreases k
  {
    var first := PushBatch(m.(ware := m.ware[1..]), w, m.ware[0]);
    if k > 0 {
      DrainedOneMore(first, w, k - 1);
      assert m.ware[1..][k - 1..] == m.ware[k..];
    } else {
      assert Drained(first, w, 0) == first;
    }
  }

  lemma {:induction false} DrainedWare(m: Mesh, w: nat, k: nat)
    requires m.Shape() && w < m.Workers() && k <= |m.ware|
    ensures Drained(m, w, k).ware == m.ware[k..] && Tasks(Drained(m, w, k)) == Tasks(m)
    decreases k
  {
    hide Tasks;
    if k > 0 {
      R.DrainConserves(m, w);
      DrainedWare(PushBatch(m.(ware := m.ware[1..]), w, m.ware[0]), w, k - 1);
      assert m.ware[1..][k - 1..] == m.ware[k..];
    }
  }

  predicate SmallChunks(q: seq<Chunk>) {
    forall c :: c in q ==> |c.tasks| <= CHUNK_SIZE
  }

  // ----- allocation -----

  ghost predicate QueuesApart(qs: seq<LocalQueue>) {
    forall i, j :: 0 <= i < j < |qs| ==> qs[i] != qs[j] && qs[i].buffer != qs[j].buffer
  }

  ghost predicate BoxesApart(bs: seq<Mailbox>) {
    forall i, j :: 0 <= i < j < |bs| ==> bs[i] != bs[j] && bs[i].buffer != bs[j].buffer
  }

  method NewQueues(n: nat) returns (qs: seq<LocalQueue>)
    ensures |qs| == n && QueuesApart(qs)
    ensures forall i :: 0 <= i < n ==> fresh(qs[i]) && fresh(qs[i].buffer) && qs[i].Valid() && qs[i].Contents() == []
  {
    qs := [];
    for k := 0 to n
      invariant |qs| == k && QueuesApart(qs)
      invariant forall i :: 0 <= i < k ==> fresh(qs[i]) && fresh(qs[i].buffer)
      invariant forall i :: 0 <= i < k ==> qs[i].Valid() && qs[i].Contents() == []
    {
      var q := new LocalQueue();
      qs := qs + [q];
    }
  }

  method NewBoxes(n: nat) returns (bs: seq<Mailbox>)
    ensures |bs| == n && BoxesApart(bs)
    ensures forall i :: 0 <= i < n ==> fresh(bs[i]) && fresh(bs[i].buffer) && bs[i].Valid() && bs[i].Contents() == []
  {
    bs := [];
    for k := 0 to n
      invariant |bs| == k && BoxesApart(bs)
      invariant forall i :: 0 <= i < k ==> fresh(bs[i]) && fresh(bs[i].buffer)
      invariant forall i :: 0 <= i < k ==> bs[i].Valid() && bs[i].Contents() == []
    {
      var b := new Mailbox();
      bs := bs + [b];
    }
  }

  ghost predicate RowsApart(rows: seq<seq<Mailbox>>) {
    && (forall p :: 0 <= p < |rows| ==> BoxesApart(rows[p]))
    && (forall p, q, t, u :: 0 <= p < q < |rows| && 0 <= t < |rows[p]| && 0 <= u < |rows[q]| ==>
          rows[p][t] != rows[q][u] && rows[p][t].buffer != rows[q][u].buffer)
  }

  method NewMatrix(n: nat) returns (rows: seq<seq<Mailbox>>)
    ensures |rows| == n && RowsApart(rows) && forall p :: 0 <= p < n ==> |rows[p]| == n
    ensures forall p, t :: 0 <= p < n && 0 <= t < n ==>
              fresh(rows[p][t]) && fresh(rows[p][t].buffer) && rows[p][t].Valid() && rows[p][t].Contents() == []
  {
    rows := [];
    for k := 0 to n
      invariant |rows| == k && RowsApart(rows) && forall p :: 0 <= p < k ==> |rows[p]| == n
      invariant forall p, t :: 0 <= p < k && 0 <= t < n ==>
                  fresh(rows[p][t]) && fresh(rows[p][t].buffer) && rows[p][t].Valid() && rows[p][t].Contents() == []
    {
      var row := NewBoxes(n);
      rows := rows + [row];
    }
  }

  /** The order in which worker `w` polls the others: all of them, once, its own complex first. */
  ghost predicate GoodOrder(order: seq<nat>, w: nat, n: nat) {
    && (forall i, j :: 0 <= i < j < |order| ==> order[i] != order[j])
    && (forall i :: i in order <==> 0 <= i < n && i != w)
    && w < n && (exists near :: NearFirst(order, w, n, near))
  }

  method NewOrders(n: nat) returns (orders: seq<seq<nat>>)
    requires n <= 65_536
    ensures |orders| == n && forall w :: 0 <= w < n ==> GoodOrder(orders[w], w, n)
  {
    orders := [];
    for w := 0 to n
      invariant |orders| == w && forall v :: 0 <= v < w ==> GoodOrder(orders[v], v, n)
    {
      var order := PollingOrder(w, (w / 8) % 65_536, n);
      orders := orders + [order];
    }
  }

  // ----- addressing -----

  ghost predicate Square(mail: seq<seq<Mailbox>>, ext: seq<Mailbox>, n: nat) {
    |mail| == |ext| == n && forall p :: 0 <= p < n ==> |mail[p]| == n
  }

  predicate In(c: Caller, n: nat) { c.Worker? ==> c.id < n }

  /** The mailbox that a caller's chunks for `t` go to. */
  function BoxAt(mail: seq<seq<Mailbox>>, ext: seq<Mailbox>, c: Caller, t: nat): Mailbox
    requires Square(mail, ext, |ext|) && In(c, |ext|) && t < |ext|
  {
    match c
    case Worker(p) => mail[p][t]
    case Host => ext[t]
  }

  /** No two addresses share a mailbox. */
  ghost predicate AllApart(mail: seq<seq<Mailbox>>, ext: seq<Mailbox>)
    requires Square(mail, ext, |ext|)
  {
    forall c, d, t: nat, u: nat :: In(c, |ext|) && In(d, |ext|) && t < |ext| && u < |ext| && (c != d || t != u) ==>
      && BoxAt(mail, ext, c, t) != BoxAt(mail, ext, d, u)
      && BoxAt(mail, ext, c, t).buffer != BoxAt(mail, ext, d, u).buffer
  }

  ghost predicate MatrixApart(mail: seq<seq<Mailbox>>, ext: seq<Mailbox>)
    requires Square(mail, ext, |ext|)
  {
    && RowsApart(mail) && BoxesApart(ext)
    && (forall p, t, u :: 0 <= p < |ext| && 0 <= t < |ext| && 0 <= u < |ext| ==>
          mail[p][t] != ext[u] && mail[p][t].buffer != ext[u].buffer)
  }

  lemma ApartAtAddresses(mail: seq<seq<Mailbox>>, ext: seq<Mailbox>)
    requires Square(mail, ext, |ext|) && MatrixApart(mail, ext)
    ensures AllApart(mail, ext)
  {
    forall c, d, t: nat, u: nat | In(c, |ext|) && In(d, |ext|) && t < |ext| && u < |ext| && (c != d || t != u)
      ensures BoxAt(mail, ext, c, t) != BoxAt(mail, ext, d, u)
      ensures BoxAt(mail, ext, c, t).buffer != BoxAt(mail, ext, d, u).buffer
    {
      ApartAt(mail, ext, c, d, t, u);
    }
  }

  lemma ApartAt(mail: seq<seq<Mailbox>>, ext: seq<Mailbox>, c: Caller, d: Caller, t: nat, u: nat)
    requires Square(mail, ext, |ext|) && MatrixApart(mail, ext)
    requires In(c, |ext|) && In(d, |ext|) && t < |ext| && u < |ext| && (c != d || t != u)
    ensures BoxAt(mail, ext, c, t) != BoxAt(mail, ext, d, u)
    ensures BoxAt(mail, ext, c, t).buffer != BoxAt(mail, ext, d, u).buffer
  {
    if c.Worker? && d.Worker? && c == d { assert BoxesApart(mail[c.id]); }
  }

  ghost function QueueObjects(qs: seq<LocalQueue>): set<object> {
    (set q | q in qs :: q as object) + (set q | q in qs :: q.buffer as object)
  }

  ghost function BoxObjects(bs: seq<Mailbox>): set<object> {
    (set b | b in bs :: b as object) + (set b | b in bs :: b.buffer as object)
  }

  ghost function RowObjects(rows: seq<seq<Mailbox>>): set<object> {
    set r, o | r in rows && o in BoxObjects(r) :: o
  }

  class DtaScheduler {
    const locals: seq<LocalQueue>
    const mail: seq<seq<Mailbox>>
    const ext: seq<Mailbox>
    const order: seq<seq<nat>>
    const global: bool
    var ware: seq<Chunk>
    ghost var mesh: Mesh
    ghost const Repr: set<object>

    /** What never changes: the rings, all apart from each other, and the polling orders. */
    ghost predicate Layout() {
      && 0 < |locals| == |order|
      && Square(mail, ext, |locals|)
      && QueuesApart(locals)
      && AllApart(mail, ext)
      && (forall w :: 0 <= w < |locals| ==> locals[w] in Repr && locals[w].buffer in Repr)
      && (forall c, t: nat :: In(c, |locals|) && t < |locals| ==> Box(c, t) in Repr && Box(c, t).buffer in Repr)
      && (forall w :: 0 <= w < |order| ==> GoodOrder(order[w], w, |locals|))
    }

    function Box(c: Caller, t: nat): Mailbox
      requires Square(mail, ext, |locals|) && In(c, |locals|) && t < |locals|
    {
      BoxAt(mail, ext, c, t)
    }

    ghost predicate QueueOk(w: nat)
      requires w < |locals|
      reads this, locals[w], locals[w].buffer
    {
      locals[w].Valid() && w < |mesh.locals| && locals[w].Contents() == mesh.locals[w]
    }

    ghost predicate BoxOk(c: Caller, t: nat)
      requires Layout() && In(c, |locals|) && t < |locals|
      reads this, Box(c, t), Box(c, t).buffer
    {
      && mesh.Shape() && mesh.Workers() == |locals|
      && Box(c, t).Valid() && Box(c, t).Contents() == Inbox(mesh, c, t)
    }

    /** The rings hold the mesh. */
    ghost predicate Valid()
      reads this, Repr
    {
      && Layout()
      && mesh.Shape() && mesh.Workers() == |locals| && mesh.ware == ware
      && (forall w :: 0 <= w < |locals| ==> QueueOk(w))
      && (forall c, t: nat :: In(c, |locals|) && t < |locals| ==> BoxOk(c, t))
    }

    /** `new` allocates all rings and computes all polling orders.  Every worker polls exactly
        the others, so with the routing theorems no chunk is put where nobody looks. */
    constructor (n: nat, global: bool)
      requires 0 < n <= 65_536
      ensures Valid() && fresh(Repr) && mesh == EmptyMesh(n) && this.global == global
      ensures |order| == n && forall w :: 0 <= w < n ==> GoodOrder(order[w], w, n)
    {
      hide GoodOrder;
      var qs := NewQueues(n);
      var rows := NewMatrix(n);
      var outer := NewBoxes(n);
      var orders := NewOrders(n);
      assert MatrixApart(rows, outer);
      ApartAtAddresses(rows, outer);
      locals, mail, ext, order, ware := qs, rows, outer, orders, [];
      this.global := global;
      mesh := EmptyMesh(n);
      Repr := QueueObjects(qs) + RowObjects(rows) + BoxObjects(outer);
      new;
      hide AllApart;
      hide QueuesApart;
      hide LocalQueue.Contents;
      hide Mailbox.Contents;
      hide Holds;
      forall c, t: nat | In(c, n) && t < n ensures Box(c, t) in Repr && Box(c, t).buffer in Repr {
        BoxIsObject(rows, outer, c, t);
      }
      assert forall w :: 0 <= w < n ==> qs[w] in qs;
      assert Layout();
      hide Layout;
      assert forall w :: 0 <= w < n ==> QueueOk(w);
      forall c, t: nat | In(c, n) && t < n ensures BoxOk(c, t) {
        assert Inbox(mesh, c, t) == [];
      }
    }

    // ----- one access each -----

    /** One attempt on the caller's mailbox for `target`. */
    method PostOnce(c: Caller, target: nat, chunk: Chunk) returns (ok: bool)
      requires Valid() && CallerOk(mesh, c) && target < |locals|
      modifies this`mesh, Repr
      ensures Valid() && (mesh, ok) == Post(old(mesh), c, target, chunk)
    {
      hide GoodOrder;
      hide LocalQueue.Contents;
      hide Mailbox.Contents;
      hide LocalQueue.Valid;
      hide Mailbox.Valid;
      hide Holds;
      hide QueuesApart;
      ghost var m := mesh;
      ghost var q := Inbox(m, c, target);
      assert BoxOk(c, target);
      ok := Box(c, target).Push(chunk);
      mesh := if ok then SetInbox(m, c, target, q + [chunk]) else m;
      forall u | 0 <= u < |locals| ensures QueueOk(u) {
        assert old(QueueOk(u));
        OtherInbox(m, c, target, q + [chunk], c, target);
      }
      forall d, u: nat | In(d, |locals|) && u < |locals| ensures BoxOk(d, u) {
        assert old(BoxOk(d, u));
        OtherInbox(m, c, target, q + [chunk], d, u);
      }
    }

    method TakeFront(w: nat, from: Caller) returns (r: Option<Chunk>)
      requires Valid() && w < |locals| && CallerOk(mesh, from)
      modifies this`mesh, Repr
      ensures Valid()
      ensures var q := Inbox(old(mesh), from, w);
              if q == [] then r == None && mesh == old(mesh)
              else r == Some(q[0]) && mesh == SetInbox(old(mesh), from, w, q[1..])
    {
      hide GoodOrder;
      hide LocalQueue.Contents;
      hide Mailbox.Contents;
      hide LocalQueue.Valid;
      hide Mailbox.Valid;
      hide Holds;
      hide QueuesApart;
      ghost var m := mesh;
      ghost var q := Inbox(m, from, w);
      assert BoxOk(from, w);
      r := Box(from, w).Pop();
      mesh := if q == [] then m else SetInbox(m, from, w, q[1..]);
      ghost var left := if q == [] then q else q[1..];
      forall u | 0 <= u < |locals| ensures QueueOk(u) {
        assert old(QueueOk(u));
        OtherInbox(m, from, w, left, from, w);
      }
      forall d, u: nat | In(d, |locals|) && u < |locals| ensures BoxOk(d, u) {
        assert old(BoxOk(d, u));
        OtherInbox(m, from, w, left, d, u);
      }
    }

    method PushLocalOnce(w: nat, task: Task) returns (ok: bool)
      requires Valid() && w < |locals|
      modifies this`mesh, Repr
      ensures Valid() && (mesh, ok) == PushLocal(old(mesh), w, task)
    {
      hide GoodOrder;
      hide LocalQueue.Contents;
      hide Mailbox.Contents;
      hide LocalQueue.Valid;
      hide Mailbox.Valid;
      hide Holds;
      hide AllApart;
      ghost var m := mesh;
      assert QueueOk(w);
      ok := locals[w].PushLocal(task);
      mesh := PushLocal(m, w, task).0;
      forall u | 0 <= u < |locals| ensures QueueOk(u) {
        assert old(QueueOk(u));
      }
      forall c, t: nat | In(c, |locals|) && t < |locals| ensures BoxOk(c, t) {
        assert old(BoxOk(c, t));
        assert Inbox(mesh, c, t) == Inbox(m, c, t);
      }
    }

    /** A batch goes to the back of the worker's queue, in place; the room that
        `LocalQueue.PushBatch` asks for is the caller's promise. */
    method PushBatchOnce(w: nat, tasks: seq<Task>)
      requires Valid() && w < |locals| && |mesh.locals[w]| + |tasks| < LOCAL_QUEUE_CAPACITY
      modifies this`mesh, Repr
      ensures Valid() && mesh == SetLocal(old(mesh), w, old(mesh).locals[w] + tasks)
    {
      hide GoodOrder;
      hide LocalQueue.Contents;
      hide Mailbox.Contents;
      hide LocalQueue.Valid;
      hide Mailbox.Valid;
      hide Holds;
      hide AllApart;
      ghost var m := mesh;
      assert QueueOk(w);
      locals[w].PushBatch(tasks);
      mesh := SetLocal(m, w, m.locals[w] + tasks);
      forall u | 0 <= u < |locals| ensures QueueOk(u) {
        assert old(QueueOk(u));
      }
      forall c, t: nat | In(c, |locals|) && t < |locals| ensures BoxOk(c, t) {
        assert old(BoxOk(c, t));
        assert Inbox(mesh, c, t) == Inbox(m, c, t);
      }
    }

    method SetWarehouse(q: seq<Chunk>)
      requires Valid()
      modifies this`ware, this`mesh
      ensures Valid() && ware == q && mesh == old(mesh).(ware := q)
    {
      hide GoodOrder;
      hide LocalQueue.Contents;
      hide Mailbox.Contents;
      hide LocalQueue.Valid;
      hide Mailbox.Valid;
      hide Holds;
      hide AllApart;
      ware, mesh := q, mesh.(ware := q);
      forall u | 0 <= u < |locals| ensures QueueOk(u) {
        assert old(QueueOk(u));
      }
      forall c, t: nat | In(c, |locals|) && t < |locals| ensures BoxOk(c, t) {
        assert old(BoxOk(c, t));
        assert Inbox(mesh, c, t) == Inbox(old(mesh), c, t);
      }
    }

    method ParkInWarehouse(chunk: Chunk) returns (ok: bool)
      requires Valid()
      modifies this`ware, this`mesh
      ensures Valid() && (mesh, ok) == Park(old(mesh), chunk)
    {
      ok := |ware| < WAREHOUSE_CAPACITY;
      if ok { SetWarehouse(ware + [chunk]); }
    }

    /** The worker's queue length, read off the ring. */
    method QueueLen(w: nat) returns (len: nat)
      requires Valid() && w < |locals|
      ensures len == |mesh.locals[w]|
    {
      assert QueueOk(w);
      len := locals[w].Len();
    }

    // ----- calls -----

    method EnqueuePinned(c: Caller, core: nat, task: Task) returns (ok: bool)
      requires Valid() && CallerOk(mesh, c)
      modifies this, Repr
      ensures Valid() && (mesh, ok) == R.EnqueuePinned(old(mesh), c, core, task)
      ensures Tasks(mesh) == if ok then Tasks(old(mesh)) + multiset{task} else Tasks(old(mesh))
    {
      hide Tasks;
      hide Layout;
      R.EnqueueAddsOnce(mesh, c, core, task, true);
      var target := core % |locals|;
      if c == Worker(target) {
        ok := PushLocalOnce(target, task);
      } else {
        ok := PostOnce(c, target, Single(task));
      }
    }

    /** The hop loop. */
    method PushChunkWithHop(c: Caller, initial: nat, chunk: Chunk) returns (ok: bool)
      requires Valid() && CallerOk(mesh, c) && initial < |locals|
      modifies this, Repr
      ensures Valid()
      ensures (mesh, ok) == R.PushChunk(old(mesh), c, R.OffOwnColumn(|locals|, c, initial), chunk)
    {
      hide Valid;
      var n := |locals|;
      ValidSize();
      var target: nat, k := R.OffOwnColumn(n, c, initial), chunk;
      ghost var m := mesh;
      while true
        invariant Valid() && mesh == m && target < n == m.Workers() && k.hops <= chunk.hops + MaxHops(n)
        invariant R.PushChunk(m, c, target, k) == R.PushChunk(m, c, R.OffOwnColumn(n, c, initial), chunk)
        decreases MaxHops(n) - k.hops
      {
        ok := PostOnce(c, target, k);
        if ok {
          return true;
        }
        if k.hops >= MaxHops(n) {
          ok := ParkInWarehouse(k);
          return ok;
        }
        k := k.(hops := k.hops + 1);
        target := R.HopTarget(n, c, k.hops);
      }
    }

    lemma ValidSize()
      requires Valid()
      ensures mesh.Shape() && mesh.Workers() == |locals| && mesh.ware == ware
    {
    }

    lemma ValidOrder(w: nat)
      requires Valid() && w < |locals|
      ensures |order| == |locals| && GoodOrder(order[w], w, |locals|)
    {
    }

    /** Once the target is chosen: the warehouse while it is in use, the own queue, the hop loop. */
    method EnqueueTo(c: Caller, target: nat, task: Task) returns (ok: bool)
      requires Valid() && CallerOk(mesh, c) && target < |locals|
      modifies this, Repr
      ensures Valid() && mesh.Shape() && mesh.Workers() == |locals|
      ensures (mesh, ok) == R.EnqueueDeflect(old(mesh), c, target, task)
    {
      ValidSize();
      hide Valid;
      if ware != [] {
        ok := ParkInWarehouse(Chunk([task], HOPS_EXHAUSTED));
        ValidSize();
        return;
      }
      if c == Worker(target) {
        ok := PushLocalOnce(target, task);
        ValidSize();
        if ok {
          return;
        }
      }
      ok := PushChunkWithHop(c, target, Single(task));
      ValidSize();
    }

    method EnqueueDeflect(c: Caller, sourceCore: nat, flow: nat, task: Task, aff: R.Affinity, load: nat, threshold: nat)
      returns (ok: bool)
      requires Valid() && CallerOk(mesh, c)
      modifies this, Repr
      ensures Valid()
      ensures var target := R.DeflectTarget(|locals|, sourceCore, flow, load > threshold, global, aff);
              (mesh, ok) == R.EnqueueDeflect(old(mesh), c, target, task)
      ensures Tasks(mesh) == if ok then Tasks(old(mesh)) + multiset{task} else Tasks(old(mesh))
    {
      ValidSize();
      hide Valid;
      hide Tasks;
      var target := R.DeflectTarget(|locals|, sourceCore, flow, load > threshold, global, aff);
      R.EnqueueAddsOnce(mesh, c, target, task, false);
      ok := EnqueueTo(c, target, task);
    }

    /** Up to 64 chunks move from the warehouse into the worker's queue; the loop stops early
        only on an empty warehouse or a queue near the watermark. */
    method DrainWarehouse(w: nat) returns (drained: bool, ghost k: nat)
      requires Valid() && w < |locals| && SmallChunks(ware)
      modifies this, Repr
      ensures Valid() && k <= 64 && k <= |old(ware)| && (drained <==> 0 < k)
      ensures mesh == Drained(old(mesh), w, k) && Tasks(mesh) == Tasks(old(mesh))
      ensures k == 64 || ware == [] || |mesh.locals[w]| + CHUNK_SIZE > LOCAL_QUEUE_HIGH_WATERMARK
      ensures 0 < k ==> |mesh.locals[w]| <= LOCAL_QUEUE_HIGH_WATERMARK
    {
      ValidSize();
      hide Valid;
      hide Tasks;
      var count := 0;
      k := 0;
      ghost var m := mesh;
      while count < 64
        invariant count == k <= 64 && k <= |m.ware|
        invariant Valid() && mesh.Shape() && |mesh.locals| == |m.locals| == |locals|
        invariant mesh == Drained(m, w, k)
        invariant ware == mesh.ware == m.ware[k..]
        invariant 0 < k ==> |mesh.locals[w]| <= LOCAL_QUEUE_HIGH_WATERMARK
      {
        var len := QueueLen(w);
        if len + CHUNK_SIZE > LOCAL_QUEUE_HIGH_WATERMARK || ware == [] {
          break;
        }
        DrainedOneMore(m, w, k);
        var chunk := ware[0];
        assert chunk in m.ware;
        SetWarehouse(ware[1..]);
        PushBatchOnce(w, chunk.tasks);
        ValidSize();
        count, k := count + 1, k + 1;
      }
      DrainedWare(m, w, k);
      drained := count > 0;
    }

    /** The four-way router: every path into `push_batch` has the room it asks for. */
    method RouteChunk(w: nat, chunk: Chunk) returns (ok: bool)
      requires Valid() && w < |locals|
      modifies this, Repr
      ensures Valid() && (mesh, ok) == R.RouteChunk(old(mesh), w, chunk)
    {
      ValidSize();
      hide Valid;
      var len := QueueLen(w);
      var spaceOk := len + |chunk.tasks| <= LOCAL_QUEUE_HIGH_WATERMARK;
      var hopsOk := chunk.hops < MaxHops(|locals|);
      if spaceOk {
        PushBatchOnce(w, chunk.tasks);
        return true;
      }
      if hopsOk {
        var k := chunk.(hops := Min(chunk.hops + 1, HOPS_EXHAUSTED));
        var target := R.HopTarget(|locals|, Worker(w), k.hops);
        ok := PostOnce(Worker(w), target, k);
        if !ok { ok := ParkInWarehouse(k); }
      } else {
        ok := ParkInWarehouse(chunk);
      }
    }

    /** Empties one incoming mailbox, routing chunk after chunk. */
    method PollInbox(w: nat, from: Caller) returns (received: bool, ok: bool)
      requires Valid() && w < |locals| && CallerOk(mesh, from) && from != Worker(w)
      modifies this, Repr
      ensures Valid() && mesh.Shape() && mesh.Workers() == |locals|
      ensures ok ==> Tasks(mesh) == Tasks(old(mesh))
      ensures ok ==> Crowded(mesh, w) || Inbox(mesh, from, w) == []
      ensures Crowded(old(mesh), w) ==> Crowded(mesh, w)
      ensures SameInboxes(old(mesh), mesh, w, from)
      ensures received <==> !Crowded(old(mesh), w) && Inbox(old(mesh), from, w) != []
      ensures !ok ==> received
      ensures !received ==> mesh == old(mesh)
    {
      ValidSize();
      hide Valid;
      hide Tasks;
      received, ok := false, true;
      ghost var first := mesh;
      while true
        invariant Valid() && ok && mesh.Shape() && mesh.Workers() == |locals| && Tasks(mesh) == Tasks(first)
        invariant Crowded(first, w) ==> Crowded(mesh, w)
        invariant SameInboxes(first, mesh, w, from)
        invariant received ==> !Crowded(first, w) && Inbox(first, from, w) != []
        invariant !received ==> mesh == first
        decreases |Inbox(mesh, from, w)|
      {
        var len := QueueLen(w);
        if len + CHUNK_SIZE >= LOCAL_QUEUE_CAPACITY {
          break;
        }
        ghost var m := mesh;
        var r := TakeFront(w, from);
        if r == None {
          break;
        }
        received := true;
        ok := RouteChunk(w, r.value);
        RouteLeavesInboxes(SetInbox(m, from, w, Inbox(m, from, w)[1..]), w, r.value);
        PollKeepsOthers(m, mesh, w, from, r.value);
        ValidSize();
        if !ok {
          return;
        }
        R.PollConserves(m, from, w);
      }
    }

    /** The mailboxes of the given workers, one after the other. */
    method PollWorkers(w: nat, polls: seq<nat>) returns (received: bool, ok: bool)
      requires Valid() && w < |locals| && OtherWorkers(polls, w, |locals|)
      modifies this, Repr
      ensures Valid() && mesh.Shape() && mesh.Workers() == |locals|
      ensures ok ==> Tasks(mesh) == Tasks(old(mesh))
      ensures ok ==> Crowded(mesh, w) || Emptied(mesh, w, polls, |polls|)
      ensures received <==> !Crowded(old(mesh), w) && !Emptied(old(mesh), w, polls, |polls|)
      ensures !ok ==> received
      ensures !received ==> mesh == old(mesh)
    {
      ValidSize();
      hide Valid;
      hide Tasks;
      hide Emptied;
      hide SameInboxes;
      received, ok := false, true;
      ghost var first := mesh;
      NothingPolled(mesh, w, polls);
      var k := 0;
      while k < |polls|
        invariant 0 <= k <= |polls| && Valid() && ok && mesh.Shape() && mesh.Workers() == |locals|
        invariant Tasks(mesh) == Tasks(first)
        invariant Crowded(mesh, w) || Emptied(mesh, w, polls, k)
        invariant received <==> !Crowded(first, w) && !Emptied(first, w, polls, k)
        invariant !received ==> mesh == first
      {
        ghost var m := mesh;
        var got;
        got, ok := PollInbox(w, Worker(polls[k]));
        received := received || got;
        EmptiedNext(first, w, polls, k);
        if !ok {
          EmptiedShorter(first, w, polls, k + 1);
          return;
        }
        OneMorePolled(m, mesh, w, polls, k);
        k := k + 1;
      }
    }

    /** One sweep over all incoming mailboxes: unless the queue runs out of guaranteed room,
        it leaves none of them with a chunk, and it moves tasks without losing or copying any. */
    method PollMailboxes(w: nat) returns (received: bool, ok: bool)
      requires Valid() && w < |locals|
      modifies this, Repr
      ensures Valid() && mesh.Shape() && mesh.Workers() == |locals|
      ensures ok ==> Tasks(mesh) == Tasks(old(mesh))
      ensures ok ==> Crowded(mesh, w) || NoMailFor(mesh, w)
      ensures received <==> !Crowded(old(mesh), w) && !NoMailFor(old(mesh), w)
      ensures !received ==> mesh == old(mesh)
    {
      ValidSize();
      ValidOrder(w);
      hide Valid;
      hide Tasks;
      hide Emptied;
      hide SameInboxes;
      var polls := order[w];
      OrderIsOthers(polls, w, |locals|);
      hide GoodOrder;
      ghost var first := mesh;
      MailIsPolled(first, w, polls);
      received, ok := PollWorkers(w, polls);
      if !ok {
        return;
      }
      ghost var m := mesh;
      var got;
      got, ok := PollInbox(w, Host);
      received := received || got;
      if ok { AllPolled(m, mesh, w, polls); }
    }
  }

  /** The queue has no guaranteed room for one more full chunk. */
  predicate Crowded(m: Mesh, w: nat) {
    w < m.Workers() && |m.locals[w]| + CHUNK_SIZE >= LOCAL_QUEUE_CAPACITY
  }

  /** Worker `w`'s other incoming mailboxes are as they were. */
  ghost predicate SameInboxes(m: Mesh, m': Mesh, w: nat, from: Caller)
    requires m.Shape() && m'.Shape() && w < m.Workers() == m'.Workers()
  {
    forall c :: CallerOk(m, c) && c != Worker(w) && c != from ==> Inbox(m', c, w) == Inbox(m, c, w)
  }

  predicate OtherWorkers(polls: seq<nat>, w: nat, n: nat) {
    forall j :: 0 <= j < |polls| ==> polls[j] < n && polls[j] != w
  }

  /** Of the polled workers the first `k` have nothing left for `w`. */
  predicate Emptied(m: Mesh, w: nat, polls: seq<nat>, k: nat)
    requires m.Shape() && w < m.Workers() && OtherWorkers(polls, w, m.Workers()) && k <= |polls|
  {
    forall j :: 0 <= j < k ==> Inbox(m, Worker(polls[j]), w) == []
  }

  ghost predicate NoMailFor(m: Mesh, w: nat)
    requires m.Shape() && w < m.Workers()
  {
    forall c :: CallerOk(m, c) && c != Worker(w) ==> Inbox(m, c, w) == []
  }

  lemma OrderIsOthers(polls: seq<nat>, w: nat, n: nat)
    requires GoodOrder(polls, w, n)
    ensures OtherWorkers(polls, w, n)
  {
    forall j | 0 <= j < |polls| ensures polls[j] < n && polls[j] != w { assert polls[j] in polls; }
  }

  lemma AllPolled(m: Mesh, m': Mesh, w: nat, polls: seq<nat>)
    requires m.Shape() && m'.Shape() && w < m.Workers() == m'.Workers()
    requires GoodOrder(polls, w, m.Workers()) && OtherWorkers(polls, w, m.Workers())
    requires Crowded(m, w) || Emptied(m, w, polls, |polls|)
    requires (Crowded(m, w) ==> Crowded(m', w)) && SameInboxes(m, m', w, Host)
    requires Crowded(m', w) || Inbox(m', Host, w) == []
    ensures Crowded(m', w) || NoMailFor(m', w)
  {
    hide Inbox;
    if !Crowded(m', w) {
      forall c | CallerOk(m', c) && c != Worker(w) ensures Inbox(m', c, w) == [] {
        if c.Worker? {
          assert c.id in polls;
          assert Inbox(m', c, w) == Inbox(m, c, w);
        }
      }
    }
  }

  lemma EmptiedNext(m: Mesh, w: nat, polls: seq<nat>, k: nat)
    requires m.Shape() && w < m.Workers() && OtherWorkers(polls, w, m.Workers()) && k < |polls|
    ensures Emptied(m, w, polls, k + 1) <==> Emptied(m, w, polls, k) && Inbox(m, Worker(polls[k]), w) == []
  {
    hide Inbox;
  }

  lemma EmptiedShorter(m: Mesh, w: nat, polls: seq<nat>, k: nat)
    requires m.Shape() && w < m.Workers() && OtherWorkers(polls, w, m.Workers()) && k <= |polls|
    ensures Emptied(m, w, polls, |polls|) ==> Emptied(m, w, polls, k)
  {
    hide Inbox;
  }

  /** The polling order and the external mailbox are all the mail there is. */
  lemma MailIsPolled(m: Mesh, w: nat, polls: seq<nat>)
    requires m.Shape() && w < m.Workers() && GoodOrder(polls, w, m.Workers()) && OtherWorkers(polls, w, m.Workers())
    ensures NoMailFor(m, w) <==> Emptied(m, w, polls, |polls|) && Inbox(m, Host, w) == []
  {
    hide Inbox;
    if Emptied(m, w, polls, |polls|) && Inbox(m, Host, w) == [] {
      forall c | CallerOk(m, c) && c != Worker(w) ensures Inbox(m, c, w) == [] {
        if c.Worker? { assert c.id in polls; }
      }
    }
  }

  lemma NothingPolled(m: Mesh, w: nat, polls: seq<nat>)
    requires m.Shape() && w < m.Workers() && OtherWorkers(polls, w, m.Workers())
    ensures Emptied(m, w, polls, 0)
  {
  }

  lemma OneMorePolled(m: Mesh, m': Mesh, w: nat, polls: seq<nat>, k: nat)
    requires m.Shape() && m'.Shape() && w < m.Workers() == m'.Workers()
    requires OtherWorkers(polls, w, m.Workers()) && k < |polls|
    requires Crowded(m, w) || Emptied(m, w, polls, k)
    requires Crowded(m, w) ==> Crowded(m', w)
    requires SameInboxes(m, m', w, Worker(polls[k]))
    requires Crowded(m', w) || Inbox(m', Worker(polls[k]), w) == []
    ensures Crowded(m', w) || Emptied(m', w, polls, k + 1)
  {
    hide Inbox;
    if !Crowded(m', w) {
      forall j | 0 <= j < k + 1 ensures Inbox(m', Worker(polls[j]), w) == [] {
        assert polls[j] != polls[k] ==> Inbox(m', Worker(polls[j]), w) == Inbox(m, Worker(polls[j]), w);
      }
    }
  }

  lemma PollKeepsOthers(m: Mesh, r: Mesh, w: nat, from: Caller, chunk: Chunk)
    requires m.Shape() && w < m.Workers() && CallerOk(m, from) && from != Worker(w) && Inbox(m, from, w) != []
    requires r == R.RouteChunk(SetInbox(m, from, w, Inbox(m, from, w)[1..]), w, chunk).0
    ensures SameInboxes(m, r, w, from) && Inbox(r, from, w) == Inbox(m, from, w)[1..]
    ensures Crowded(m, w) ==> Crowded(r, w)
  {
    var m1 := SetInbox(m, from, w, Inbox(m, from, w)[1..]);
    RouteLeavesInboxes(m1, w, chunk);
    OtherInbox(m, from, w, Inbox(m, from, w)[1..], from, w);
    hide R.RouteChunk;
    forall c | CallerOk(m, c) && c != Worker(w) && c != from ensures Inbox(r, c, w) == Inbox(m, c, w) {
      OtherInbox(m, from, w, Inbox(m, from, w)[1..], c, w);
      assert Inbox(r, c, w) == Inbox(m1, c, w);
    }
  }

  lemma BoxIsObject(mail: seq<seq<Mailbox>>, ext: seq<Mailbox>, c: Caller, t: nat)
    requires Square(mail, ext, |ext|) && In(c, |ext|) && t < |ext|
    ensures var b := BoxAt(mail, ext, c, t);
            b in RowObjects(mail) + BoxObjects(ext) && b.buffer in RowObjects(mail) + BoxObjects(ext)
  {
    if c.Worker? {
      assert mail[c.id] in mail && mail[c.id][t] in mail[c.id];
      assert mail[c.id][t] in BoxObjects(mail[c.id]) && mail[c.id][t].buffer in BoxObjects(mail[c.id]);
    } else {
      assert ext[t] in ext;
    }
  }

  /** The router never touches a mailbox addressed to its own worker. */
  lemma RouteLeavesInboxes(m: Mesh, w: nat, chunk: Chunk)
    requires m.Shape() && w < m.Workers()
    ensures var r := R.RouteChunk(m, w, chunk).0;
            && |r.locals[w]| >= |m.locals[w]|
            && forall c :: CallerOk(m, c) && c != Worker(w) ==> Inbox(r, c, w) == Inbox(m, c, w)
  {
  }
}
