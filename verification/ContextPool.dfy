/** `ContextPool::new`: the loop that initialises every context of a fresh arena. */
module ContextPoolObject {
  import opened Arith
  import opened Arena
  import F = FreeList

  class ContextPool {
    const config: Config
    var freeHead: nat
    const nextFree: array<nat>
    const fiberIndex: array<nat>
    const readBuffer: array<nat>

    /** Contexts below `n` are initialised: linked to their successor, numbered, and given the
        buffer below them. */
    ghost predicate Initialised(n: nat)
      reads nextFree, fiberIndex, readBuffer
    {
      && 0 < config.page
      && nextFree != fiberIndex && nextFree != readBuffer && fiberIndex != readBuffer
      && n <= nextFree.Length == fiberIndex.Length == readBuffer.Length == config.capacity
      && (forall i: nat :: i < n ==> nextFree[i] == (i + 1) % WORD32)
      && (forall i: nat :: i < n ==> fiberIndex[i] == i)
      && (forall i: nat :: i < n ==> readBuffer[i] == BufferPtr(config, i))
    }

    method InitContext(k: nat)
      requires Initialised(k) && k < config.capacity
      modifies nextFree, fiberIndex, readBuffer
      ensures Initialised(k + 1)
    {
      hide BufferPtr;
      fiberIndex[k] := k;
      readBuffer[k] := BufferPtr(config, k);
      nextFree[k] := (k + 1) % WORD32;
    }

    /** The free list the pool starts with is the full list 0, 1, ..., capacity - 1, the one
        whose every run is shown to hand out disjoint contexts; each context knows its own
        index and the buffer in its own slot. */
    constructor (c: Config)
      requires c.Valid() && c.capacity < WORD32
      ensures config == c && freeHead == 0 && fresh(nextFree) && fresh(fiberIndex) && fresh(readBuffer)
      ensures nextFree[..] == F.Linked(c.capacity, 0).next
      ensures F.Linked(c.capacity, 0).head == F.Head(freeHead, 0)
      ensures fiberIndex[..] == Upto(c.capacity)
      ensures readBuffer.Length == c.capacity
      ensures forall i: nat :: i < c.capacity ==>
                SlotStart(c, i) + c.stack <= readBuffer[i] && readBuffer[i] + BUFFER == ContextPtr(c, i)
    {
      config := c;
      freeHead := 0;
      nextFree := new nat[c.capacity];
      fiberIndex := new nat[c.capacity];
      readBuffer := new nat[c.capacity];
      new;
      hide BufferPtr;
      hide ContextPtr;
      hide SlotStart;
      for k := 0 to c.capacity
        modifies nextFree, fiberIndex, readBuffer
        invariant Initialised(k)
      {
        InitContext(k);
      }
      forall i: nat | i < c.capacity
        ensures SlotStart(c, i) + c.stack <= readBuffer[i] && readBuffer[i] + BUFFER == ContextPtr(c, i)
      {
        ContextInOwnSlot(c, i);
      }
      nextFree[c.capacity - 1] := F.NIL;
      assert nextFree[..] == F.Linked(c.capacity, 0).next;
      assert fiberIndex[..] == Upto(c.capacity);
    }
  }
}
