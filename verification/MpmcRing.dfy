/** Vyukov's bounded multi-producer multi-consumer ring, as used by `BoundedMpmcQueue`
    and, with a backlog counter on top, by the scheduler's `Warehouse`.

    A thread performs one atomic access of the source per step.  `tickets` records what
    happened to every claimed position; it is history, which no step reads. */
module MpmcRing {
  import opened Arith
  import opened Wrappers

  datatype Stage = Claimed | Written | Published | Taken | Emptied | Released

  datatype Ticket<T> = Ticket(value: T, stage: Stage, producer: nat, consumer: nat)

  datatype Cell<T> = Cell(seqno: nat, data: Option<T>)

  /** A pop is either a plain call or one made by the drain loop. */
  datatype Caller = Plain | Drain(target: nat)

  datatype Pc<T> =
    | Idle
    | PushLoad(v: T)
    | PushSeq(v: T, pos: nat)
    | PushCas(v: T, pos: nat)
    | PushWrite(v: T, pos: nat)
    | PushPublish(v: T, pos: nat)
    | PushCount
    | PushDone(rejected: Option<T>)
    | PopLoad(who: Caller)
    | PopSeq(who: Caller, pos: nat)
    | PopCas(who: Caller, pos: nat)
    | PopRead(who: Caller, pos: nat)
    | PopRelease(who: Caller, pos: nat, got: Option<T>)
    | PopCount(who: Caller, got: Option<T>)
    | PopDone(result: Option<T>)
    | DrainTest(target: nat)
    | DrainDone(target: nat)

  /** `counting` tells the warehouse (true) from the plain queue (false). */
  datatype State<T> = State(
    cap: nat,
    counting: bool,
    cells: seq<Cell<T>>,
    enq: nat,
    deq: nat,
    backlog: nat,
    threads: seq<Pc<T>>,
    tickets: seq<Ticket<T>>)

  /** `spurious` lets a weak compare-exchange fail for no reason; `reload` is the
      warehouse's retry, which loads the counter again instead of using the value the
      failed exchange returned. */
  datatype Event<T> =
    | BeginPush(t: nat, v: T)
    | BeginPop(t: nat)
    | BeginDrain(t: nat)
    | Advance(t: nat, spurious: bool, reload: bool)
    | Finish(t: nat)

  predicate Shape<T>(s: State<T>) {
    0 < s.cap == |s.cells|
  }

  function Fresh<T>(requested: nat, counting: bool, n: nat): (s: State<T>)
    ensures Shape(s)
  {
    var cap := if requested == 0 then 1 else requested;
    State(cap, counting, seq(cap, i requires 0 <= i => Cell(i, None)), 0, 0, 0, seq(n, _ => Idle), [])
  }

  predicate Resting<T>(pc: Pc<T>) {
    pc.Idle? || pc.PushDone? || pc.PopDone? || pc.DrainDone?
  }

  predicate Pushing<T>(pc: Pc<T>) {
    pc.PushLoad? || pc.PushSeq? || pc.PushCas? || pc.PushWrite? || pc.PushPublish? || pc.PushCount?
  }

  predicate Enabled<T>(s: State<T>, e: Event<T>) {
    && Shape(s)
    && e.t < |s.threads|
    && match e
       case Advance(t, _, _) => !Resting(s.threads[t])
       case Finish(t) => Resting(s.threads[t]) && !s.threads[t].Idle?
       case _ => s.threads[e.t].Idle?
  }

  function Goto<T>(s: State<T>, t: nat, pc: Pc<T>): State<T>
    requires t < |s.threads|
  {
    s.(threads := s.threads[t := pc])
  }

  function Mark<T>(ts: seq<Ticket<T>>, pos: nat, stage: Stage): (r: seq<Ticket<T>>)
    ensures |r| == |ts|
  {
    if pos < |ts| then ts[pos := ts[pos].(stage := stage)] else ts
  }

  function SetCell<T>(s: State<T>, pos: nat, c: Cell<T>, stage: Stage): State<T>
    requires Shape(s)
  {
    s.(cells := s.cells[pos % s.cap := c], tickets := Mark(s.tickets, pos, stage))
  }

  /** Where a pop that found nothing, or delivered its value, goes next. */
  function Delivered<T>(who: Caller, r: Option<T>): Pc<T> {
    match who
    case Plain => PopDone(r)
    case Drain(target) => DrainTest(target)
  }

  function StepPush<T>(s: State<T>, t: nat, spurious: bool, reload: bool): State<T>
    requires Shape(s) && t < |s.threads|
  {
    match s.threads[t]
    case PushLoad(v) => Goto(s, t, PushSeq(v, s.enq))
    case PushSeq(v, pos) =>
      var q := s.cells[pos % s.cap].seqno;
      Goto(s, t, if q == pos then PushCas(v, pos) else if q < pos then PushDone(Some(v)) else PushLoad(v))
    case PushCas(v, pos) =>
      if s.enq == pos && !spurious then
        Goto(s.(enq := pos + 1, tickets := s.tickets + [Ticket(v, Claimed, t, 0)]), t, PushWrite(v, pos))
      else if reload then Goto(s, t, PushLoad(v))
      else Goto(s, t, PushSeq(v, s.enq))
    case PushWrite(v, pos) =>
      Goto(SetCell(s, pos, s.cells[pos % s.cap].(data := Some(v)), Written), t, PushPublish(v, pos))
    case PushPublish(v, pos) =>
      Goto(SetCell(s, pos, s.cells[pos % s.cap].(seqno := pos + 1), Published), t,
           if s.counting then PushCount else PushDone(None))
    case PushCount =>
      Goto(s.(backlog := (s.backlog + 1) % WORD32), t, PushDone(None))
    case _ => s
  }

  function StepPop<T>(s: State<T>, t: nat, spurious: bool, reload: bool): State<T>
    requires Shape(s) && t < |s.threads|
  {
    match s.threads[t]
    case PopLoad(who) => Goto(s, t, PopSeq(who, s.deq))
    case PopSeq(who, pos) =>
      var q := s.cells[pos % s.cap].seqno;
      Goto(s, t, if q == pos + 1 then PopCas(who, pos) else if q < pos + 1 then Delivered(who, None) else PopLoad(who))
    case PopCas(who, pos) =>
      if s.deq == pos && !spurious then
        var ts := s.tickets;
        var taken := if pos < |ts| then ts[pos := ts[pos].(stage := Taken, consumer := t)] else ts;
        Goto(s.(deq := pos + 1, tickets := taken), t, PopRead(who, pos))
      else if reload then Goto(s, t, PopLoad(who))
      else Goto(s, t, PopSeq(who, s.deq))
    case PopRead(who, pos) =>
      var c := s.cells[pos % s.cap];
      Goto(SetCell(s, pos, c.(data := None), Emptied), t, PopRelease(who, pos, c.data))
    case PopRelease(who, pos, got) =>
      Goto(SetCell(s, pos, s.cells[pos % s.cap].(seqno := pos + s.cap), Released), t,
           if s.counting then PopCount(who, got) else Delivered(who, got))
    case PopCount(who, got) =>
      Goto(s.(backlog := (s.backlog - 1) % WORD32), t, Delivered(who, got))
    case DrainTest(target) =>
      Goto(s, t, if target > s.deq then PopLoad(Drain(target)) else DrainDone(target))
    case _ => s
  }

  function Step<T>(s: State<T>, e: Event<T>): (s': State<T>)
    requires Enabled(s, e)
    ensures Shape(s') && s'.cap == s.cap && |s'.threads| == |s.threads|
  {
    match e
    case BeginPush(t, v) => Goto(s, t, PushLoad(v))
    case BeginPop(t) => Goto(s, t, PopLoad(Plain))
    case BeginDrain(t) => Goto(s, t, DrainTest(s.enq))
    case Finish(t) => Goto(s, t, Idle)
    case Advance(t, spurious, reload) =>
      if Pushing(s.threads[t]) then StepPush(s, t, spurious, reload) else StepPop(s, t, spurious, reload)
  }

  predicate Valid<T>(s: State<T>, es: seq<Event<T>>)
    decreases |es|
  {
    es == [] || (Enabled(s, es[0]) && Valid(Step(s, es[0]), es[1..]))
  }

  function Run<T>(s: State<T>, es: seq<Event<T>>): (s': State<T>)
    requires Valid(s, es)
    ensures Shape(s) ==> Shape(s') && s'.cap == s.cap && |s'.threads| == |s.threads|
    decreases |es|
  {
    if es == [] then s else Run(Step(s, es[0]), es[1..])
  }
}
