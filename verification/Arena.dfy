/** The context arena: slot and guard-page offsets for the three safety levels, and what
    `spawn` places inside a slot.  `x & !(a - 1)` for a power of two `a` is `Down(x, a)`. */
module Arena {
  import opened Arith
  import T = Tiling

  const ALIGN: nat := 64
  const BUFFER: nat := 8192
  const GROUP: nat := 32

  datatype Safety = Safety0 | Safety1 | Safety2

  datatype Config = Config(base: nat, capacity: nat, stack: nat, contextSize: nat, page: nat, safety: Safety) {
    ghost predicate Valid() {
      && 0 < capacity && 0 < contextSize
      && IsPow2(page) && 0 < page && page % ALIGN == 0
      && base % page == 0
    }
  }

  function Down(x: nat, a: nat): (r: nat)
    requires 0 < a
    ensures r <= x < r + a && r % a == 0
  {
    ModStep(0, x / a, a);
    (x / a) * a
  }

  // ----- sizes, as ContextPool::new computes them -----

  function ContextSz(c: Config): (r: nat)
    ensures c.contextSize <= r < c.contextSize + ALIGN && r % ALIGN == 0
  {
    Down(c.contextSize + ALIGN - 1, ALIGN)
  }

  function SlotSize(c: Config): (r: nat)
    requires 0 < c.page
    ensures c.stack + ContextSz(c) + BUFFER <= r < c.stack + ContextSz(c) + BUFFER + c.page && r % c.page == 0
  {
    Down(c.stack + ContextSz(c) + BUFFER + c.page - 1, c.page)
  }

  function Groups(c: Config): nat { (c.capacity + GROUP - 1) / GROUP }

  function TotalSize(c: Config): nat
    requires 0 < c.page
  {
    match c.safety
    case Safety0 => Times(c.capacity, SlotSize(c))
    case Safety1 => Times(c.capacity, SlotSize(c)) + Times(Groups(c), c.page)
    case Safety2 => Times(c.capacity, SlotSize(c) + c.page)
  }

  /** The offset of the guard page with number `g`, as `new` protects them. */
  function GuardOffset(c: Config, g: nat): nat
    requires 0 < c.page && c.safety != Safety0
  {
    if c.safety == Safety1 then Times(g, SlotSize(c) * GROUP + c.page) else Times(g, SlotSize(c) + c.page)
  }

  function Guards(c: Config): nat {
    match c.safety
    case Safety0 => 0
    case Safety1 => Groups(c)
    case Safety2 => c.capacity
  }

  function SlotOffset(c: Config, i: nat): nat
    requires 0 < c.page
  {
    var guards := match c.safety case Safety0 => 0 case Safety1 => i / GROUP + 1 case Safety2 => i + 1;
    Times(i, SlotSize(c)) + Times(guards, c.page)
  }

  /** `get_context_ptr`. */
  function ContextPtr(c: Config, i: nat): nat
    requires 0 < c.page
  {
    c.base + SlotOffset(c, i) + (SlotSize(c) - ContextSz(c))
  }

  /** The read buffer that `new` records in the context. */
  function BufferPtr(c: Config, i: nat): nat
    requires 0 < c.page
  {
    Down(ContextPtr(c, i) - BUFFER, ALIGN)
  }

  // ----- tiling -----

  datatype Region = Slot(i: nat) | Guard(g: nat)

  predicate Exists(c: Config, r: Region) {
    match r
    case Slot(i) => i < c.capacity
    case Guard(g) => g < Guards(c)
  }

  function Start(c: Config, r: Region): nat
    requires 0 < c.page && Exists(c, r)
  {
    match r
    case Slot(i) => SlotOffset(c, i)
    case Guard(g) => GuardOffset(c, g)
  }

  function Length(c: Config, r: Region): nat
    requires 0 < c.page
  {
    if r.Slot? then SlotSize(c) else c.page
  }

  predicate Covers(c: Config, r: Region, x: nat)
    requires 0 < c.page
  {
    Exists(c, r) && Start(c, r) <= x < Start(c, r) + Length(c, r)
  }

  /** Slots per guard page. */
  function PerGuard(c: Config): nat { if c.safety == Safety1 then GROUP else 1 }

  /** The region an offset belongs to, computed from the offset. */
  function Locate(c: Config, x: nat): Region
    requires 0 < c.page
  {
    if c.safety == Safety0 then Slot(T.PlainSlot(x, SlotSize(c)))
    else
      var (isGuard, number) := T.Locate(x, SlotSize(c), c.page, PerGuard(c));
      if isGuard then Guard(number) else Slot(number)
  }

  /** The three levels are one layout: no guards, or a guard page before every `PerGuard`
      slots. */
  lemma Uniform(c: Config, i: nat, g: nat)
    requires 0 < c.page && c.safety != Safety0
    ensures SlotOffset(c, i) == T.SlotAt(i, SlotSize(c), c.page, PerGuard(c))
    ensures GuardOffset(c, g) == g * T.Unit(SlotSize(c), c.page, PerGuard(c))
    ensures Guards(c) == T.CeilDiv(c.capacity, PerGuard(c))
    ensures TotalSize(c) == c.capacity * SlotSize(c) + Guards(c) * c.page
  {
  }

  /** Whoever covers `x` is the region that `Locate` computes. */
  lemma OnlyOneCovers(c: Config, r: Region, x: nat)
    requires c.Valid() && Covers(c, r, x)
    ensures r == Locate(c, x)
  {
    var z, k := SlotSize(c), PerGuard(c);
    hide SlotSize;
    if c.safety == Safety0 {
      T.PlainSlotIff(x, r.i, c.capacity, z);
    } else if r.Guard? {
      Uniform(c, 0, r.g);
      T.GuardIsFound(r.g, x, z, c.page, k);
    } else {
      Uniform(c, r.i, 0);
      T.SlotIsFound(r.i, x, z, c.page, k);
    }
  }

  /** Every offset below the total size is covered. */
  lemma LocateCovers(c: Config, x: nat)
    requires c.Valid() && x < TotalSize(c)
    ensures Covers(c, Locate(c, x), x)
  {
    var z, k := SlotSize(c), PerGuard(c);
    hide SlotSize;
    if c.safety == Safety0 {
      T.PlainSlotIff(x, T.PlainSlot(x, z), c.capacity, z);
    } else {
      var (isGuard, i) := T.Locate(x, z, c.page, k);
      Uniform(c, i, i);
      T.LocateIsRight(x, c.capacity, z, c.page, k);
    }
  }

  /** Tiling: slots and guard pages are disjoint and fill the arena -- every offset below the
      total size is in exactly one of them. */
  lemma RegionsTile(c: Config, r: Region, x: nat)
    requires c.Valid() && x < TotalSize(c)
    ensures Covers(c, r, x) <==> r == Locate(c, x)
  {
    hide Covers;
    hide Locate;
    LocateCovers(c, x);
    if Covers(c, r, x) { OnlyOneCovers(c, r, x); }
  }

  /** ... and no region reaches beyond it. */
  lemma RegionsFit(c: Config, r: Region)
    requires c.Valid() && Exists(c, r)
    ensures Start(c, r) + Length(c, r) <= TotalSize(c)
  {
    var z, p, k := SlotSize(c), c.page, PerGuard(c);
    hide SlotSize;
    if c.safety == Safety0 {
      MulMonotone(r.i + 1, c.capacity, z);
      assert (r.i + 1) * z == r.i * z + z;
    } else if r.Slot? {
      Uniform(c, r.i, 0);
      T.SlotFits(r.i, c.capacity, z, p, k);
    } else {
      Uniform(c, 0, r.g);
      T.GuardFits(r.g, c.capacity, z, p, k);
    }
  }

  // ----- inside a slot -----

  function SlotStart(c: Config, i: nat): nat
    requires 0 < c.page
  {
    c.base + SlotOffset(c, i)
  }

  lemma Divides(a: nat, b: nat, x: nat)
    requires 0 < a && 0 < b && a % b == 0 && x % a == 0
    ensures x % b == 0
  {
    assert a == (a / b) * b && x == (x / a) * a;
    assert x == ((x / a) * (a / b)) * b;
    ModStep(0, (x / a) * (a / b), b);
  }

  lemma SumDivides(x: int, y: int, a: nat)
    requires 0 < a && x % a == 0 && y % a == 0
    ensures (x + y) % a == 0 && (x - y) % a == 0
  {
    assert x == (x / a) * a && y == (y / a) * a;
    assert x + y == (x / a + y / a) * a && x - y == (x / a - y / a) * a;
    ModStep(0, x / a + y / a, a);
    ModStep(0, x / a - y / a, a);
  }

  lemma MulDivides(k: nat, x: nat, a: nat)
    requires 0 < a && x % a == 0
    ensures (k * x) % a == 0
  {
    assert x == (x / a) * a;
    assert k * x == (k * (x / a)) * a;
    ModStep(0, k * (x / a), a);
  }

  /** Every slot starts on a page boundary, whatever the safety level. */
  lemma SlotsArePageAligned(c: Config, i: nat)
    requires c.Valid()
    ensures SlotStart(c, i) % c.page == 0 && SlotStart(c, i) % ALIGN == 0
  {
    var guards := match c.safety case Safety0 => 0 case Safety1 => i / GROUP + 1 case Safety2 => i + 1;
    MulDivides(i, SlotSize(c), c.page);
    MulDivides(guards, c.page, c.page);
    SumDivides(i * SlotSize(c), guards * c.page, c.page);
    SumDivides(c.base, SlotOffset(c, i), c.page);
    Divides(c.page, ALIGN, SlotStart(c, i));
  }

  /** The context ends its slot, is 64-byte aligned, and its read buffer lies directly below
      it; at least the requested stack lies between the slot's start and the buffer. */
  lemma ContextInOwnSlot(c: Config, i: nat)
    requires c.Valid()
    ensures ContextPtr(c, i) % ALIGN == 0
    ensures BufferPtr(c, i) == ContextPtr(c, i) - BUFFER
    ensures SlotStart(c, i) + c.stack <= BufferPtr(c, i)
    ensures ContextPtr(c, i) + c.contextSize <= SlotStart(c, i) + SlotSize(c)
    ensures (BufferPtr(c, i) - SlotStart(c, i)) % ALIGN == 0
  {
    SlotsArePageAligned(c, i);
    Divides(c.page, ALIGN, SlotSize(c));
    SumDivides(SlotSize(c), ContextSz(c), ALIGN);
    SumDivides(SlotStart(c, i), SlotSize(c) - ContextSz(c), ALIGN);
    SumDivides(ContextPtr(c, i), BUFFER, ALIGN);
    DownOfMultiple(ContextPtr(c, i) - BUFFER, ALIGN);
    SumDivides(BufferPtr(c, i), SlotStart(c, i), ALIGN);
  }

  lemma DownOfMultiple(x: nat, a: nat)
    requires 0 < a && x % a == 0
    ensures Down(x, a) == x
  {
  }

  // ----- what spawn puts there -----

  /** Where `spawn` would put a future of the given size and alignment. */
  function FutureAddress(c: Config, i: nat, size: nat, align: nat): nat
    requires 0 < c.page && 0 < align && size <= BufferPtr(c, i) + BUFFER
  {
    Down(BufferPtr(c, i) + BUFFER - size, align)
  }

  /** The test that sends a future to the heap. */
  predicate HeapEscaped(c: Config, i: nat, size: nat, align: nat)
    requires 0 < c.page && 0 < align && size <= BufferPtr(c, i) + BUFFER
  {
    var at := FutureAddress(c, i, size, align);
    at < BufferPtr(c, i) || at + size > BufferPtr(c, i) + BUFFER
  }

  function StackLimit(c: Config, i: nat, size: nat, align: nat): nat
    requires 0 < c.page && 0 < align && size <= BufferPtr(c, i) + BUFFER
  {
    if HeapEscaped(c, i, size, align) then BufferPtr(c, i) + BUFFER else FutureAddress(c, i, size, align)
  }

  /** The x86-64 stack top, where the poison return address is stored. */
  function StackTop(limit: nat): int { Down(limit, 16) - 8 }

  /** The bytes below the buffer's end that a future takes up: the distance `pad` from the last
      aligned address to the end, and what does not fit there, rounded up. */
  function Needed(size: nat, pad: nat, align: nat): nat
    requires 0 < align
  {
    pad + if size <= pad then 0 else Down(size - pad + align - 1, align)
  }

  lemma FutureIsAt(end: nat, size: nat, align: nat)
    requires 0 < align && size <= end
    ensures Down(end - size, align) == end - Needed(size, end % align, align)
  {
    var pad, at := end % align, Down(end - size, align);
    var want := end - Needed(size, pad, align);
    assert end == (end / align) * align + pad;
    ModStep(0, end / align, align);
    if size > pad {
      var up := Down(size - pad + align - 1, align);
      SumDivides(end - pad, up, align);
      assert want <= end - size < want + align;
    }
    ModInjective(want, at, align);
  }

  /** A future is placed inline exactly when what it needs fits the buffer.  Up to an alignment
      of 64 there is no padding, so its size and alignment alone decide. */
  lemma InlineIff(c: Config, i: nat, size: nat, align: nat)
    requires c.Valid() && 0 < align && size <= BufferPtr(c, i) + BUFFER
    ensures !HeapEscaped(c, i, size, align) <==> Needed(size, ContextPtr(c, i) % align, align) <= BUFFER
    ensures ALIGN % align == 0 ==> ContextPtr(c, i) % align == 0
  {
    ContextInOwnSlot(c, i);
    FutureIsAt(ContextPtr(c, i), size, align);
    if ALIGN % align == 0 { Divides(ALIGN, align, ContextPtr(c, i)); }
  }

  /** A future is put at the highest address that its size and alignment allow.  An inlined
      future, the poison word below it and the context above it are disjoint, and the
      future and the context lie inside the fiber's own slot (for the poison word see
      `PoisonInOwnSlotIff`); a stack in use starts 8 below a 16-byte boundary, as section 3.2.2
      of the System V AMD64 ABI requires at a function's entry. */
  lemma PlacementIsDisjoint(c: Config, i: nat, size: nat, align: nat)
    requires c.Valid() && 0 < align && size <= BufferPtr(c, i) + BUFFER
    ensures var at, limit := FutureAddress(c, i, size, align), StackLimit(c, i, size, align);
            && StackTop(limit) % 16 == 8
            && StackTop(limit) + 8 <= limit <= ContextPtr(c, i)
            && (!HeapEscaped(c, i, size, align) ==>
                  at % align == 0 && limit == at && BufferPtr(c, i) <= at && at + size <= ContextPtr(c, i))
            && ContextPtr(c, i) < at + size + align
            && (HeapEscaped(c, i, size, align) ==> limit == ContextPtr(c, i))
  {
    ContextInOwnSlot(c, i);
    var limit := StackLimit(c, i, size, align);
    ModStep(8, Down(limit, 16) / 16 - 1, 16);
  }

  /** The poison word is inside the fiber's own slot unless the pool was asked for no stack at
      all, the context and buffer fill whole pages exactly, and the future fills the buffer to
      within 16 bytes; then it lies below the slot. */
  lemma PoisonInOwnSlotIff(c: Config, i: nat, size: nat, align: nat)
    requires c.Valid() && 0 < align && size <= BufferPtr(c, i) + BUFFER
    ensures var limit := StackLimit(c, i, size, align);
            SlotStart(c, i) <= StackTop(limit)
            <==> c.stack > 0 || (ContextSz(c) + BUFFER) % c.page != 0 || limit >= BufferPtr(c, i) + 16
  {
    ContextInOwnSlot(c, i);
    var limit, start := StackLimit(c, i, size, align), BufferPtr(c, i);
    NoSlack(c);
    assert start - SlotStart(c, i) == SlotSize(c) - ContextSz(c) - BUFFER;
    Divides(ALIGN, 16, start);
    if limit < start + 16 { DownNear(limit, start); } else { DownFar(limit, start); }
    if start != SlotStart(c, i) { AtLeastOne(start - SlotStart(c, i), ALIGN); }
  }

  /** No byte is left between a slot's start and its buffer exactly when no stack was asked for
      and the rest fills whole pages. */
  lemma NoSlack(c: Config)
    requires c.Valid()
    ensures SlotSize(c) == ContextSz(c) + BUFFER <==> c.stack == 0 && (ContextSz(c) + BUFFER) % c.page == 0
  {
    var used := ContextSz(c) + BUFFER;
    if c.stack == 0 && used % c.page == 0 {
      SumDivides(SlotSize(c), used, c.page);
      ModInjective(SlotSize(c), used, c.page);
    }
  }

  lemma AtLeastOne(x: nat, a: nat)
    requires 0 < a && 0 < x && x % a == 0
    ensures x >= a
  {
    if x < a { ModSmall(x, a); }
  }

  lemma DownNear(limit: nat, start: nat)
    requires start % 16 == 0 && start <= limit < start + 16
    ensures Down(limit, 16) == start
  {
    ModInjective(Down(limit, 16), start, 16);
  }

  lemma DownFar(limit: nat, start: nat)
    requires start % 16 == 0 && start + 16 <= limit
    ensures Down(limit, 16) >= start + 16
  {
  }

  /** The C entry point places its stack top at a fixed distance below the context. */
  lemma LaunchStackTop(c: Config, i: nat)
    requires c.Valid()
    ensures var top := Down(ContextPtr(c, i), 16) - 72;
            top % 16 == 8 && BufferPtr(c, i) <= top && top + 8 <= ContextPtr(c, i)
  {
    ContextInOwnSlot(c, i);
    Divides(ALIGN, 16, ContextPtr(c, i));
    DownOfMultiple(ContextPtr(c, i), 16);
    ModStep(8, ContextPtr(c, i) / 16 - 5, 16);
  }
}
