/** The masked rings of the scheduler: a worker's local queue and a core-to-core mailbox.
    Both keep one slot empty, so that head and tail coincide only on an empty ring. */
module WorkerQueues {
  import opened Arith
  import opened Wrappers
  import opened Limits
  import opened RingSeq
  import Mesh

  /** `Worker`'s local execution queue. */
  class LocalQueue {
    var head: nat
    var tail: nat
    const buffer: array<Mesh.Task>

    ghost predicate Valid()
      reads this
    {
      buffer.Length == LOCAL_QUEUE_CAPACITY && head < LOCAL_QUEUE_CAPACITY && tail < LOCAL_QUEUE_CAPACITY
    }

    function Len(): (n: nat)
      reads this
      ensures n < LOCAL_QUEUE_CAPACITY
    {
      (tail - head) % LOCAL_QUEUE_CAPACITY
    }

    ghost function Contents(): (q: seq<Mesh.Task>)
      requires Valid()
      reads this, buffer
      ensures |q| == Len() && Holds(buffer[..], head, q)
    {
      var b, h := buffer[..], head;
      seq(Len(), i requires 0 <= i => b[(h + i) % |b|])
    }

    constructor ()
      ensures Valid() && Contents() == [] && fresh(buffer)
    {
      head, tail := 0, 0;
      buffer := new Mesh.Task[LOCAL_QUEUE_CAPACITY];
    }

    lemma ContentsAre(q: seq<Mesh.Task>)
      requires Valid() && |q| == Len() && Holds(buffer[..], head, q)
      ensures Contents() == q
    {
      forall i | 0 <= i < |q| ensures Contents()[i] == q[i] {
        assert buffer[..][(head + i) % buffer.Length] == q[i];
      }
    }

    /** `push_local` refuses exactly a queue of 131071 tasks. */
    method PushLocal(task: Mesh.Task) returns (ok: bool)
      requires Valid()
      modifies this`tail, buffer
      ensures Valid() && ok == !Mesh.LocalFull(old(Contents()))
      ensures Contents() == if ok then old(Contents()) + [task] else old(Contents())
    {
      if Len() >= LOCAL_QUEUE_CAPACITY - 1 {
        return false;
      }
      ghost var q, b := Contents(), buffer[..];
      TailMasked(buffer.Length, head, tail, 1);
      RunExtends(b, head, q, tail, [task]);
      buffer[tail] := task;
      assert buffer[..] == b[..tail] + [task] + b[tail + 1..];
      tail := (tail + 1) % LOCAL_QUEUE_CAPACITY;
      ContentsAre(q + [task]);
      return true;
    }

    /** `push_batch`, whose caller guarantees the room: one straight copy, or two when the
        batch reaches over the end of the buffer. */
    method PushBatch(tasks: seq<Mesh.Task>)
      requires Valid() && Len() + |tasks| < LOCAL_QUEUE_CAPACITY
      modifies this`tail, buffer
      ensures Valid() && Contents() == old(Contents()) + tasks
    {
      ghost var q := Contents();
      TailMasked(buffer.Length, head, tail, |tasks|);
      var end := tail + |tasks|;
      Store(tasks, q);
      tail := end % LOCAL_QUEUE_CAPACITY;
      ContentsAre(q + tasks);
    }

    method Store(tasks: seq<Mesh.Task>, ghost q: seq<Mesh.Task>)
      requires Valid() && q == Contents() && Len() + |tasks| < LOCAL_QUEUE_CAPACITY
      modifies buffer
      ensures Holds(buffer[..], head, q + tasks)
    {
      TailMasked(buffer.Length, head, tail, 0);
      if tail + |tasks| <= LOCAL_QUEUE_CAPACITY {
        StoreStraight(tasks, q);
      } else {
        StoreSplit(tasks, q);
      }
    }

    method StoreStraight(tasks: seq<Mesh.Task>, ghost q: seq<Mesh.Task>)
      requires Valid() && Holds(buffer[..], head, q) && (head + |q|) % buffer.Length == tail
      requires |q| + |tasks| <= buffer.Length && tail + |tasks| <= buffer.Length
      modifies buffer
      ensures Holds(buffer[..], head, q + tasks)
    {
      RunExtends(buffer[..], head, q, tail, tasks);
      CopyInto(buffer, tail, tasks, 0, |tasks|);
      assert tasks[0..|tasks|] == tasks;
    }

    method StoreSplit(tasks: seq<Mesh.Task>, ghost q: seq<Mesh.Task>)
      requires Valid() && Holds(buffer[..], head, q) && (head + |q|) % buffer.Length == tail
      requires |q| + |tasks| <= buffer.Length < tail + |tasks|
      modifies buffer
      ensures Holds(buffer[..], head, q + tasks)
    {
      hide Holds;
      var first := LOCAL_QUEUE_CAPACITY - tail;
      RunsExtend(buffer[..], head, q, tasks, |tasks|, tail, first);
      CopyInto(buffer, tail, tasks, 0, first);
      CopyInto(buffer, 0, tasks, first, |tasks| - first);
      assert tasks[..|tasks|] == tasks;
    }

    /** The dispatch loop's pop. */
    method PopFront() returns (r: Option<Mesh.Task>)
      requires Valid()
      modifies this`head
      ensures Valid()
      ensures r == if old(Contents()) == [] then None else Some(old(Contents())[0])
      ensures Contents() == if old(Contents()) == [] then [] else old(Contents())[1..]
    {
      ghost var q := Contents();
      if head == tail {
        return None;
      }
      if Len() == 0 { ModInjective(tail - head, 0, LOCAL_QUEUE_CAPACITY); }
      r := Some(buffer[head]);
      assert q[0] == buffer[..][(head + 0) % buffer.Length];
      HeadMasked(buffer.Length, head, tail, 1);
      DropFrontMasked(buffer[..], head, q, 1);
      head := (head + 1) % LOCAL_QUEUE_CAPACITY;
      ContentsAre(q[1..]);
    }
  }

  /** `Mailbox`, one cell of the matrix or one external mailbox. */
  class Mailbox {
    var head: nat
    var tail: nat
    const buffer: array<Mesh.Chunk>

    ghost predicate Valid()
      reads this
    {
      buffer.Length == MAILBOX_CAPACITY && head < MAILBOX_CAPACITY && tail < MAILBOX_CAPACITY
    }

    ghost function Contents(): (q: seq<Mesh.Chunk>)
      requires Valid()
      reads this, buffer
      ensures |q| == (tail - head) % MAILBOX_CAPACITY && Holds(buffer[..], head, q)
    {
      var b, h := buffer[..], head;
      seq((tail - head) % MAILBOX_CAPACITY, i requires 0 <= i => b[(h + i) % |b|])
    }

    constructor ()
      ensures Valid() && Contents() == [] && fresh(buffer)
    {
      head, tail := 0, 0;
      buffer := new Mesh.Chunk[MAILBOX_CAPACITY](_ => Mesh.Chunk([], 0));
    }

    lemma ContentsAre(q: seq<Mesh.Chunk>)
      requires Valid() && |q| == (tail - head) % MAILBOX_CAPACITY && Holds(buffer[..], head, q)
      ensures Contents() == q
    {
      forall i | 0 <= i < |q| ensures Contents()[i] == q[i] {
        assert buffer[..][(head + i) % buffer.Length] == q[i];
      }
    }

    /** The full test compares the next tail with the head: it fires at 65535 chunks. */
    lemma FullTest()
      requires Valid()
      ensures (tail + 1) % MAILBOX_CAPACITY == head <==> Mesh.MailboxFull(Contents())
    {
      var len := (tail - head) % MAILBOX_CAPACITY;
      TailMasked(MAILBOX_CAPACITY, head, tail, 1);
      ModAddMod(head + len, 1, MAILBOX_CAPACITY);
      ModSmall(head, MAILBOX_CAPACITY);
      if len == MAILBOX_CAPACITY - 1 {
        ModNext(head, MAILBOX_CAPACITY);
      } else if (tail + 1) % MAILBOX_CAPACITY == head {
        ModInjective(head + len + 1, head, MAILBOX_CAPACITY);
      }
    }

    method Push(chunk: Mesh.Chunk) returns (ok: bool)
      requires Valid()
      modifies this`tail, buffer
      ensures Valid() && ok == !Mesh.MailboxFull(old(Contents()))
      ensures Contents() == if ok then old(Contents()) + [chunk] else old(Contents())
    {
      ghost var q, b := Contents(), buffer[..];
      FullTest();
      var next := (tail + 1) % MAILBOX_CAPACITY;
      if next == head {
        return false;
      }
      TailMasked(buffer.Length, head, tail, 1);
      RunExtends(b, head, q, tail, [chunk]);
      buffer[tail] := chunk;
      assert buffer[..] == b[..tail] + [chunk] + b[tail + 1..];
      tail := next;
      ContentsAre(q + [chunk]);
      return true;
    }

    method Pop() returns (r: Option<Mesh.Chunk>)
      requires Valid()
      modifies this`head
      ensures Valid()
      ensures r == if old(Contents()) == [] then None else Some(old(Contents())[0])
      ensures Contents() == if old(Contents()) == [] then [] else old(Contents())[1..]
    {
      ghost var q := Contents();
      if head == tail {
        return None;
      }
      if (tail - head) % MAILBOX_CAPACITY == 0 { ModInjective(tail - head, 0, MAILBOX_CAPACITY); }
      r := Some(buffer[head]);
      assert q[0] == buffer[..][(head + 0) % buffer.Length];
      HeadMasked(buffer.Length, head, tail, 1);
      DropFrontMasked(buffer[..], head, q, 1);
      head := (head + 1) % MAILBOX_CAPACITY;
      ContentsAre(q[1..]);
    }
  }

  /** From entry `near` on, cores come in the order in which they follow the own core, wrapping
      around, and within `offset` of it. */
  ghost predicate FarAfter(order: seq<nat>, core: nat, total: nat, near: nat, offset: nat)
    requires 0 < total
  {
    && (forall a :: near <= a < |order| ==> (order[a] - core) % total < offset)
    && (forall a, b :: near <= a < b < |order| ==> (order[a] - core) % total < (order[b] - core) % total)
  }

  lemma FarGrows(order: seq<nat>, core: nat, total: nat, near: nat, offset: nat, i: nat)
    requires 0 < total && near <= |order| && FarAfter(order, core, total, near, offset) && (i - core) % total == offset
    ensures FarAfter(order, core, total, near, offset + 1)
    ensures FarAfter(order + [i], core, total, near, offset + 1)
  {
  }

  /** The cores of the own complex are exactly the first `near` entries, upwards; the others
      follow, starting after the own core. */
  ghost predicate NearFirst(order: seq<nat>, core: nat, total: nat, near: nat)
    requires 0 < total
  {
    && near <= |order|
    && (forall j :: 0 <= j < |order| ==> (j < near <==> order[j] / 8 == core / 8))
    && (forall a, b :: 0 <= a < b < near ==> order[a] < order[b])
    && FarAfter(order, core, total, near, total)
  }

  /** The first loop of `Worker::new`: the other cores of the same complex. */
  method NearCores(core: nat, ccx: nat, total: nat) returns (order: seq<nat>)
    requires core < total <= 65_536 && ccx == (core / 8) % 65_536
    ensures forall a, b :: 0 <= a < b < |order| ==> order[a] < order[b]
    ensures forall x :: x in order <==> 0 <= x < total && x != core && x / 8 == core / 8
  {
    order := [];
    for i := 0 to total
      invariant forall a :: 0 <= a < |order| ==> order[a] < i
      invariant forall a, b :: 0 <= a < b < |order| ==> order[a] < order[b]
      invariant forall x :: x in order <==> 0 <= x < i && x != core && x / 8 == core / 8
    {
      SmallCcx(i);
      SmallCcx(core);
      if i != core && (i / 8) % 65_536 == ccx {
        order := order + [i];
      }
    }
  }

  /** What the second loop has established when it has run up to `offset`. */
  ghost predicate Listed(order: seq<nat>, core: nat, total: nat, near: nat, offset: nat)
    requires 0 < total
  {
    && near <= |order|
    && (forall j :: 0 <= j < |order| ==> order[j] < total && (j < near <==> order[j] / 8 == core / 8))
    && (forall a, b :: 0 <= a < b < |order| ==> order[a] != order[b])
    && (forall a, b :: 0 <= a < b < near ==> order[a] < order[b])
    && FarAfter(order, core, total, near, offset)
    && (forall x :: x in order <==> Polled(x, core, total, offset))
  }

  lemma ListOneMore(order: seq<nat>, core: nat, total: nat, near: nat, offset: nat, i: nat)
    requires core < total <= 65_536 && offset < total && i == (core + offset) % total
    requires Listed(order, core, total, near, offset)
    ensures if i != core && i / 8 != core / 8 then Listed(order + [i], core, total, near, offset + 1)
            else Listed(order, core, total, near, offset + 1)
  {
    OffsetOf(core, offset, total);
    NextPolled(core, offset, total, i);
    FarGrows(order, core, total, near, offset, i);
    hide FarAfter;
    assert !Polled(i, core, total, offset) || i / 8 == core / 8;
    hide Polled;
    if i in order { assert i / 8 == core / 8; }
  }

  /** `Worker::new`'s polling order: first the other cores of the same complex, upwards, then
      everything else, starting after the own core and wrapping around. */
  method PollingOrder(core: nat, ccx: nat, total: nat) returns (order: seq<nat>)
    requires core < total <= 65_536 && ccx == (core / 8) % 65_536
    ensures forall i, j :: 0 <= i < j < |order| ==> order[i] != order[j]
    ensures forall i :: i in order <==> 0 <= i < total && i != core
    ensures exists near :: NearFirst(order, core, total, near)
  {
    order := NearCores(core, ccx, total);
    ghost var near := |order|;
    assert forall j :: 0 <= j < near ==> order[j] in order;
    assert Listed(order, core, total, near, 0);
    hide Listed;
    SmallCcx(core);
    for offset := 0 to total
      invariant Listed(order, core, total, near, offset)
    {
      var i := (core + offset) % total;
      SmallCcx(i);
      ListOneMore(order, core, total, near, offset, i);
      if i != core && (i / 8) % 65_536 != ccx {
        order := order + [i];
      }
    }
    ListedAll(order, core, total, near);
  }

  lemma ListedAll(order: seq<nat>, core: nat, total: nat, near: nat)
    requires core < total && Listed(order, core, total, near, total)
    ensures forall i, j :: 0 <= i < j < |order| ==> order[i] != order[j]
    ensures forall i :: i in order <==> 0 <= i < total && i != core
    ensures NearFirst(order, core, total, near)
  {
    forall x ensures x in order <==> 0 <= x < total && x != core {
      if 0 <= x < total { assert (x - core) % total < total; }
    }
  }

  /** Core `x` is in the order once the second loop has run up to `offset`. */
  ghost predicate Polled(x: int, core: nat, total: nat, offset: nat)
    requires 0 < total
  {
    0 <= x < total && x != core && (x / 8 == core / 8 || (x - core) % total < offset)
  }

  /** Each round of the second loop accounts for one more core. */
  lemma NextPolled(core: nat, offset: nat, total: nat, i: nat)
    requires core < total && offset < total && i == (core + offset) % total
    ensures forall x :: Polled(x, core, total, offset + 1) <==>
              Polled(x, core, total, offset) || (x == i && i != core && i / 8 != core / 8)
  {
    forall x
      ensures Polled(x, core, total, offset + 1) <==>
              Polled(x, core, total, offset) || (x == i && i != core && i / 8 != core / 8)
    {
      if 0 <= x < total { OffsetUnique(core, x, offset, total); }
    }
  }

  lemma SmallCcx(i: nat)
    requires i < 65_536
    ensures (i / 8) % 65_536 == i / 8
  {
  }

  lemma OffsetOf(core: nat, offset: nat, total: nat)
    requires core < total && offset < total
    ensures ((core + offset) % total - core) % total == offset
  {
    var back: int := core;
    ModAddMod(core + offset, -back, total);
    ModSmall(offset, total);
  }

  lemma OffsetUnique(core: nat, x: nat, offset: nat, total: nat)
    requires core < total && x < total && offset < total
    ensures (x - core) % total == offset <==> x == (core + offset) % total
  {
    OffsetOf(core, offset, total);
    if (x - core) % total == offset {
      ModAddMod(x - core, core, total);
      ModSmall(x, total);
    }
  }
}
