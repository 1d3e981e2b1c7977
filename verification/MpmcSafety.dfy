/** What every run of the ring keeps, for any capacity of at least two, any number of
    threads and any schedule. */
module MpmcSafety {
  import opened Arith
  import opened Wrappers
  import opened MpmcRing

  predicate AtStage<T>(s: State<T>, p: nat, stage: Stage) {
    p < |s.tickets| && s.tickets[p].stage == stage
  }

  /** Consumers have claimed the position. */
  predicate Gone(stage: Stage) {
    stage.Taken? || stage.Emptied? || stage.Released?
  }

  /** The content of the cell whose next free position is `q`, as the position one lap
      before it dictates. */
  ghost function CellFor<T>(s: State<T>, q: nat): Cell<T> {
    if q < s.cap || q - s.cap >= |s.tickets| then Cell(q, None)
    else
      var k := s.tickets[q - s.cap];
      match k.stage
      case Claimed => Cell(q - s.cap, None)
      case Written => Cell(q - s.cap, Some(k.value))
      case Published => Cell(q - s.cap + 1, Some(k.value))
      case Taken => Cell(q - s.cap + 1, Some(k.value))
      case Emptied => Cell(q - s.cap + 1, None)
      case Released => Cell(q, None)
  }

  ghost predicate PcOk<T>(s: State<T>, t: nat)
    requires t < |s.threads|
  {
    match s.threads[t]
    case PushSeq(_, pos) => pos <= s.enq
    case PushCas(_, pos) => pos <= s.enq && (s.cap <= pos ==> AtStage(s, pos - s.cap, Released))
    case PushWrite(v, pos) => AtStage(s, pos, Claimed) && s.tickets[pos].producer == t && s.tickets[pos].value == v
    case PushPublish(v, pos) => AtStage(s, pos, Written) && s.tickets[pos].producer == t && s.tickets[pos].value == v
    case PopSeq(_, pos) => pos <= s.deq
    case PopCas(_, pos) => pos <= s.deq && (AtStage(s, pos, Published) || pos < s.deq)
    case PopRead(_, pos) => AtStage(s, pos, Taken) && s.tickets[pos].consumer == t
    case PopRelease(_, pos, got) =>
      AtStage(s, pos, Emptied) && s.tickets[pos].consumer == t && got == Some(s.tickets[pos].value)
    case PopCount(_, got) => got.Some?
    case DrainDone(target) => target <= s.deq
    case _ => true
  }

  /** A position in the hands of a thread really is at that thread's program counter. */
  ghost predicate TicketOk<T>(s: State<T>, p: nat)
    requires p < |s.tickets|
  {
    var k := s.tickets[p];
    && (p < s.deq <==> Gone(k.stage))
    && (p + s.cap < s.enq ==> k.stage.Released?)
    && (k.stage.Claimed? ==> k.producer < |s.threads| && s.threads[k.producer] == PushWrite(k.value, p))
    && (k.stage.Written? ==> k.producer < |s.threads| && s.threads[k.producer] == PushPublish(k.value, p))
    && (k.stage.Taken? ==> k.consumer < |s.threads| && s.threads[k.consumer].PopRead? && s.threads[k.consumer].pos == p)
    && (k.stage.Emptied? ==>
          k.consumer < |s.threads| && s.threads[k.consumer].PopRelease? && s.threads[k.consumer].pos == p)
  }

  ghost predicate Inv<T>(s: State<T>) {
    && Shape(s)
    && 2 <= s.cap
    && |s.tickets| == s.enq
    && s.deq <= s.enq
    && (forall p :: 0 <= p < s.enq ==> TicketOk(s, p))
    && (forall q :: s.enq <= q < s.enq + s.cap ==> s.cells[q % s.cap] == CellFor(s, q))
    && (forall t :: 0 <= t < |s.threads| ==> PcOk(s, t))
  }

  lemma FreshInv<T>(cap: nat, counting: bool, n: nat)
    requires 2 <= cap
    ensures Inv(Fresh<T>(cap, counting, n))
  {
    var s := Fresh<T>(cap, counting, n);
    forall q | s.enq <= q < s.enq + s.cap ensures s.cells[q % s.cap] == CellFor(s, q) {
      ModSmall(q, cap);
    }
  }

  /** The window position that shares its cell with `pos`. */
  lemma Window(lo: nat, pos: nat, cap: nat) returns (q: nat)
    requires 0 < cap
    ensures lo <= q < lo + cap && q % cap == pos % cap
    ensures pos <= lo ==> q >= pos && (q - pos) % cap == 0
  {
    q := lo + (pos - lo) % cap;
    ModAddMod(pos - lo, lo, cap);
    if pos <= lo {
      ModSubMod(q, pos, cap);
      ModSubMod(q, q, cap);
      assert (q - q % cap) % cap == (q - q) % cap;
    }
  }

  /** What a load of the sequence number of position `pos`'s cell can see. */
  lemma SeqAt<T>(s: State<T>, pos: nat)
    requires Inv(s) && pos <= s.enq
    ensures pos == s.enq ==> s.cells[pos % s.cap] == CellFor(s, pos)
    ensures pos < s.enq <= pos + s.cap ==> s.cells[pos % s.cap] == CellFor(s, pos + s.cap)
    ensures pos + s.cap < s.enq ==> s.cells[pos % s.cap].seqno > pos + 1
  {
    ModNext(pos, s.cap);
    if pos + s.cap < s.enq {
      var q := Window(s.enq, pos, s.cap);
      if q - pos < 2 * s.cap {
        ModInjective(q - pos, s.cap, s.cap);
      }
    }
  }

  /** Updating the cell of one claimed position leaves every other cell of the lap alone. */
  lemma OtherCell(p: nat, q: nat, enq: nat, cap: nat)
    requires 0 < cap && p < enq <= p + cap && enq <= q < enq + cap && q != p + cap
    ensures q % cap != p % cap
  {
    ModNext(p, cap);
    if q % cap == p % cap {
      ModInjective(q, p + cap, cap);
    }
  }

  predicate Owner<T>(pc: Pc<T>) {
    pc.PushWrite? || pc.PushPublish? || pc.PopRead? || pc.PopRelease?
  }

  /** A step that only moves a thread that owns no position. */
  lemma LocalStep<T>(s: State<T>, t: nat, pc: Pc<T>)
    requires Inv(s) && t < |s.threads| && !Owner(s.threads[t]) && !Owner(pc)
    requires PcOk(Goto(s, t, pc), t)
    ensures Inv(Goto(s, t, pc))
  {
    var s' := Goto(s, t, pc);
    forall p | 0 <= p < s'.enq ensures TicketOk(s', p) { assert TicketOk(s, p); }
    forall q | s'.enq <= q < s'.enq + s'.cap ensures s'.cells[q % s'.cap] == CellFor(s', q) {
      assert CellFor(s', q) == CellFor(s, q);
    }
    forall u | 0 <= u < |s'.threads| ensures PcOk(s', u) {
      if u != t { assert PcOk(s, u); }
    }
  }
  
  /** A producer that reads its own position in the cell may claim it: one lap earlier the
      cell was given back. */
  lemma ReadyMeansReleased<T>(s: State<T>, pos: nat)
    requires Inv(s) && s.cap <= pos <= s.enq && s.cells[pos % s.cap].seqno == pos
    ensures AtStage(s, pos - s.cap, Released)
  {
    SeqAt(s, pos);
    assert TicketOk(s, pos - s.cap);
  }

  lemma PushSeqStep<T>(s: State<T>, t: nat)
    requires Inv(s) && t < |s.threads| && s.threads[t].PushSeq?
    ensures Inv(StepPush(s, t, false, false))
  {
    var pos := s.threads[t].pos;
    assert PcOk(s, t);
    if s.cells[pos % s.cap].seqno == pos && s.cap <= pos {
      ReadyMeansReleased(s, pos);
    }
    LocalStep(s, t, StepPush(s, t, false, false).threads[t]);
  }

  lemma PopSeqStep<T>(s: State<T>, t: nat)
    requires Inv(s) && t < |s.threads| && s.threads[t].PopSeq?
    ensures Inv(StepPop(s, t, false, false))
  {
    var pos := s.threads[t].pos;
    assert PcOk(s, t);
    SeqAt(s, pos);
    if pos < s.enq { assert TicketOk(s, pos); }
    LocalStep(s, t, StepPop(s, t, false, false).threads[t]);
  }

  lemma PushClaimThread<T>(s: State<T>, t: nat, u: nat)
    requires Inv(s) && t < |s.threads| && s.threads[t].PushCas? && s.threads[t].pos == s.enq && u < |s.threads|
    ensures PcOk(StepPush(s, t, false, false), u)
  {
    assert PcOk(s, t) && PcOk(s, u);
  }

  lemma PushClaimTicket<T>(s: State<T>, t: nat, p: nat)
    requires Inv(s) && t < |s.threads| && s.threads[t].PushCas? && s.threads[t].pos == s.enq && p <= s.enq
    ensures TicketOk(StepPush(s, t, false, false), p)
  {
    assert PcOk(s, t);
    if p < s.enq { assert TicketOk(s, p); }
  }

  lemma PushClaim<T>(s: State<T>, t: nat, reload: bool)
    requires Inv(s) && t < |s.threads| && s.threads[t].PushCas? && s.threads[t].pos == s.enq
    ensures Inv(StepPush(s, t, false, reload))
  {
    var s' := StepPush(s, t, false, reload);
    var pos := s.enq;
    assert PcOk(s, t);
    forall p | 0 <= p < s'.enq ensures TicketOk(s', p) { PushClaimTicket(s, t, p); }
    forall q | s'.enq <= q < s'.enq + s'.cap ensures s'.cells[q % s'.cap] == CellFor(s', q) {
      if q == pos + s.cap {
        ModNext(pos, s.cap);
        assert s.cells[pos % s.cap] == CellFor(s, pos);
      } else {
        assert s.cells[q % s.cap] == CellFor(s, q);
      }
    }
    forall u | 0 <= u < |s'.threads| ensures PcOk(s', u) { PushClaimThread(s, t, u); }
  }

  lemma PopClaimThread<T>(s: State<T>, t: nat, u: nat)
    requires Inv(s) && t < |s.threads| && s.threads[t].PopCas? && s.threads[t].pos == s.deq && u < |s.threads|
    ensures PcOk(StepPop(s, t, false, false), u)
  {
    assert PcOk(s, t) && PcOk(s, u);
  }

  lemma PopClaimTicket<T>(s: State<T>, t: nat, p: nat)
    requires Inv(s) && t < |s.threads| && s.threads[t].PopCas? && s.threads[t].pos == s.deq && p < s.enq
    ensures TicketOk(StepPop(s, t, false, false), p)
  {
    assert PcOk(s, t) && TicketOk(s, p);
  }

  lemma PopClaim<T>(s: State<T>, t: nat, reload: bool)
    requires Inv(s) && t < |s.threads| && s.threads[t].PopCas? && s.threads[t].pos == s.deq
    ensures Inv(StepPop(s, t, false, reload))
  {
    var s' := StepPop(s, t, false, reload);
    assert PcOk(s, t);
    forall p | 0 <= p < s'.enq ensures TicketOk(s', p) { PopClaimTicket(s, t, p); }
    forall q | s'.enq <= q < s'.enq + s'.cap ensures s'.cells[q % s'.cap] == CellFor(s', q) {
      assert s.cells[q % s.cap] == CellFor(s, q);
    }
    forall u | 0 <= u < |s'.threads| ensures PcOk(s', u) { PopClaimThread(s, t, u); }
  }

  /** An access to the cell of a position that thread `t` owns. */
  lemma CellStep<T>(s: State<T>, t: nat, pos: nat, c: Cell<T>, stage: Stage, pc: Pc<T>)
    requires Inv(s) && t < |s.threads| && Owner(s.threads[t]) && s.threads[t].pos == pos < s.enq <= pos + s.cap
    requires Owner(pc) ==> pc.pos == pos
    requires Gone(s.tickets[pos].stage) == Gone(stage)
    requires !s.tickets[pos].stage.Published? && !s.tickets[pos].stage.Released?
    requires var s' := Goto(SetCell(s, pos, c, stage), t, pc);
             c == CellFor(s', pos + s.cap) && TicketOk(s', pos) && PcOk(s', t)
    ensures Inv(Goto(SetCell(s, pos, c, stage), t, pc))
  {
    var s' := Goto(SetCell(s, pos, c, stage), t, pc);
    ModNext(pos, s.cap);
    forall p | 0 <= p < s'.enq ensures TicketOk(s', p) {
      if p != pos { OtherTicket(s, t, p, pos, c, stage, pc); }
    }
    forall q | s'.enq <= q < s'.enq + s'.cap ensures s'.cells[q % s'.cap] == CellFor(s', q) {
      if q != pos + s.cap {
        OtherCell(pos, q, s.enq, s.cap);
        assert s.cells[q % s.cap] == CellFor(s, q);
      }
    }
    forall u | 0 <= u < |s'.threads| ensures PcOk(s', u) {
      if u != t { OtherThread(s, t, u, pos, c, stage, pc); }
    }
  }

  lemma OtherTicket<T>(s: State<T>, t: nat, p: nat, pos: nat, c: Cell<T>, stage: Stage, pc: Pc<T>)
    requires Inv(s) && t < |s.threads| && p < s.enq && p != pos
    requires Owner(s.threads[t]) && s.threads[t].pos == pos < s.enq
    ensures TicketOk(Goto(SetCell(s, pos, c, stage), t, pc), p)
  {
    assert TicketOk(s, p);
  }

  lemma OtherThread<T>(s: State<T>, t: nat, u: nat, pos: nat, c: Cell<T>, stage: Stage, pc: Pc<T>)
    requires Inv(s) && t < |s.threads| && u < |s.threads| && u != t
    requires Owner(s.threads[t]) && s.threads[t].pos == pos < s.enq
    requires Gone(s.tickets[pos].stage) == Gone(stage)
    requires !s.tickets[pos].stage.Published? && !s.tickets[pos].stage.Released?
    ensures PcOk(Goto(SetCell(s, pos, c, stage), t, pc), u)
  {
    assert PcOk(s, u) && PcOk(s, t) && TicketOk(s, pos);
  }

  lemma WriteStep<T>(s: State<T>, t: nat)
    requires Inv(s) && t < |s.threads| && s.threads[t].PushWrite?
    ensures Inv(StepPush(s, t, false, false))
  {
    var pos := s.threads[t].pos;
    assert PcOk(s, t) && TicketOk(s, pos);
    SeqAt(s, pos);
    var s' := StepPush(s, t, false, false);
    CellStep(s, t, pos, s'.cells[pos % s.cap], Written, s'.threads[t]);
  }

  lemma PublishStep<T>(s: State<T>, t: nat)
    requires Inv(s) && t < |s.threads| && s.threads[t].PushPublish?
    ensures Inv(StepPush(s, t, false, false))
  {
    var pos := s.threads[t].pos;
    assert PcOk(s, t) && TicketOk(s, pos);
    SeqAt(s, pos);
    var s' := StepPush(s, t, false, false);
    CellStep(s, t, pos, s'.cells[pos % s.cap], Published, s'.threads[t]);
  }

  lemma ReadStep<T>(s: State<T>, t: nat)
    requires Inv(s) && t < |s.threads| && s.threads[t].PopRead?
    ensures Inv(StepPop(s, t, false, false))
  {
    var pos := s.threads[t].pos;
    assert PcOk(s, t) && TicketOk(s, pos);
    SeqAt(s, pos);
    var s' := StepPop(s, t, false, false);
    CellStep(s, t, pos, s'.cells[pos % s.cap], Emptied, s'.threads[t]);
  }

  lemma ReleaseStep<T>(s: State<T>, t: nat)
    requires Inv(s) && t < |s.threads| && s.threads[t].PopRelease?
    ensures Inv(StepPop(s, t, false, false))
  {
    var pos := s.threads[t].pos;
    assert PcOk(s, t) && TicketOk(s, pos);
    SeqAt(s, pos);
    var s' := StepPop(s, t, false, false);
    CellStep(s, t, pos, s'.cells[pos % s.cap], Released, s'.threads[t]);
  }

  lemma PushAdvance<T>(s: State<T>, t: nat, spurious: bool, reload: bool)
    requires Inv(s) && t < |s.threads| && Pushing(s.threads[t])
    ensures Inv(StepPush(s, t, spurious, reload))
  {
    var s' := StepPush(s, t, spurious, reload);
    match s.threads[t] {
      case PushLoad(v) => LocalStep(s, t, PushSeq(v, s.enq));
      case PushSeq(_, _) => PushSeqStep(s, t);
      case PushCas(_, pos) =>
        if pos == s.enq && !spurious { PushClaim(s, t, reload); } else { LocalStep(s, t, s'.threads[t]); }
      case PushWrite(_, _) => WriteStep(s, t);
      case PushPublish(_, _) => PublishStep(s, t);
      case PushCount =>
        LocalStep(s, t, PushDone(None));
        BacklogFree(Goto(s, t, PushDone(None)), s'.backlog);
    }
  }

  lemma PopAdvance<T>(s: State<T>, t: nat, spurious: bool, reload: bool)
    requires Inv(s) && t < |s.threads| && !Pushing(s.threads[t]) && !Resting(s.threads[t])
    ensures Inv(StepPop(s, t, spurious, reload))
  {
    var s' := StepPop(s, t, spurious, reload);
    match s.threads[t] {
      case PopLoad(who) => LocalStep(s, t, PopSeq(who, s.deq));
      case PopSeq(_, _) => PopSeqStep(s, t);
      case PopCas(_, pos) =>
        if pos == s.deq && !spurious { PopClaim(s, t, reload); } else { LocalStep(s, t, s'.threads[t]); }
      case PopRead(_, _) => ReadStep(s, t);
      case PopRelease(_, _, _) => ReleaseStep(s, t);
      case PopCount(who, got) =>
        LocalStep(s, t, Delivered(who, got));
        BacklogFree(Goto(s, t, Delivered(who, got)), s'.backlog);
      case DrainTest(_) => LocalStep(s, t, s'.threads[t]);
    }
  }

  lemma StepKeepsInv<T>(s: State<T>, e: Event<T>)
    requires Inv(s) && Enabled(s, e)
    ensures Inv(Step(s, e))
  {
    match e
    case Advance(t, spurious, reload) =>
      if Pushing(s.threads[t]) { PushAdvance(s, t, spurious, reload); } else { PopAdvance(s, t, spurious, reload); }
    case _ => LocalStep(s, e.t, Step(s, e).threads[e.t]);
  }

  /** The backlog counter takes no part in the ring's own invariant. */
  lemma BacklogFree<T>(s: State<T>, b: nat)
    requires Inv(s)
    ensures Inv(s.(backlog := b))
  {
    var s' := s.(backlog := b);
    forall p | 0 <= p < s'.enq ensures TicketOk(s', p) { assert TicketOk(s, p); }
    forall q | s'.enq <= q < s'.enq + s'.cap ensures s'.cells[q % s'.cap] == CellFor(s', q) {
      assert CellFor(s', q) == CellFor(s, q);
    }
    forall u | 0 <= u < |s'.threads| ensures PcOk(s', u) { assert PcOk(s, u); }
  }

  lemma {:induction false} RunKeepsInv<T>(s: State<T>, es: seq<Event<T>>)
    requires Inv(s) && Valid(s, es)
    ensures Inv(Run(s, es))
    decreases |es|
  {
    if es != [] {
      StepKeepsInv(s, es[0]);
      RunKeepsInv(Step(s, es[0]), es[1..]);
    }
  }
}
