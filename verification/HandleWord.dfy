/** The two packed words of the join protocol, bit for bit: the handle that `spawn` returns
    and the waiter handle that a joining fiber leaves in its target's context.  The narrower
    fields (32-bit context, 16-bit core, 32-bit generation) are 64-bit words within range, as
    the source widens them before packing. */
module HandleWord {
  const SENTINEL: bv64 := 0x8000_0000_0000_0000
  const LOW32: bv64 := 0xFFFF_FFFF
  const LOW15: bv64 := 0x7FFF

  /** [1 valid | 15 generation | 16 core | 32 context] */
  function Pack(ctx: bv64, core: bv64, gen: bv64): bv64 {
    ctx | (core << 32) | ((gen & LOW15) << 48) | SENTINEL
  }

  function ContextOf(handle: bv64): bv64 { (handle & !SENTINEL) & LOW32 }

  /** The core a wake through the handle is sent to. */
  function CoreOf(handle: bv64): bv64 { ((handle & !SENTINEL) >> 32) & 0xFFFF }

  function TagOf(handle: bv64): bv64 { ((handle & !SENTINEL) >> 48) & LOW15 }

  /** What `dtact_await` compares the tag with: the low 15 bits of the generation counter. */
  function GenerationTag(gen: bv64): bv64 { (gen & 0xFFFF) & LOW15 }

  /** A handle gives back its context and the core it was issued on, and its tag is the tag of
      the generation it was issued for; no handle is zero. */
  lemma HandleRoundTrip(ctx: bv64, core: bv64, gen: bv64)
    requires ctx <= LOW32 && core <= 0xFFFF && gen <= LOW32
    ensures ContextOf(Pack(ctx, core, gen)) == ctx
    ensures CoreOf(Pack(ctx, core, gen)) == core
    ensures TagOf(Pack(ctx, core, gen)) == GenerationTag(gen)
    ensures Pack(ctx, core, gen) != 0
  {
  }

  /** Two handles of one context and core are the same word exactly when their generations
      agree in their low 15 bits: after 32768 recyclings a handle repeats. */
  lemma HandlesRepeatIff(ctx: bv64, core: bv64, gen: bv64, later: bv64)
    requires ctx <= LOW32 && core <= 0xFFFF && gen <= LOW32 && later <= LOW32
    ensures Pack(ctx, core, gen) == Pack(ctx, core, later) <==> GenerationTag(gen) == GenerationTag(later)
  {
    HandleRoundTrip(ctx, core, gen);
    HandleRoundTrip(ctx, core, later);
  }

  function PackWaiter(index: bv64, worker: bv64): bv64 { index | (worker << 32) | SENTINEL }

  function WaiterIndex(packed: bv64): bv64 { (packed & !SENTINEL) & LOW32 }

  function WaiterWorker(packed: bv64): bv64 { (packed & !SENTINEL) >> 32 }

  /** The finisher wakes the fiber that registered, and a registration is never mistaken for
      the empty slot.  The worker comes back exactly when its id fits 31 bits. */
  lemma WaiterRoundTrip(index: bv64, worker: bv64)
    requires index <= LOW32
    ensures WaiterIndex(PackWaiter(index, worker)) == index
    ensures PackWaiter(index, worker) != 0
    ensures WaiterWorker(PackWaiter(index, worker)) == worker <==> worker < 0x8000_0000
  {
  }
}
