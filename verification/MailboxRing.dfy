/** `Mailbox` with its producer and its consumer as two threads, one access per step.  Both
    indices are masked, and one slot is kept empty.  (The producers of an external mailbox take
    turns under a lock, so there too one of them is at work at a time.)  `pushed` and `popped`
    are history, which no step reads. */
module MailboxRing {
  import opened Arith
  import opened Wrappers
  import opened Limits

  datatype Producer<T> = ProdIdle | ProdLook(v: T) | ProdWrite(v: T) | ProdPublish(v: T) | ProdDone(ok: bool)

  datatype Consumer<T> = ConsIdle | ConsLook | ConsRead | ConsRelease(got: Option<T>) | ConsDone(r: Option<T>)

  datatype State<T> = State(
    head: nat,
    tail: nat,
    buffer: seq<Option<T>>,
    prod: Producer<T>,
    cons: Consumer<T>,
    pushed: seq<T>,
    popped: seq<Option<T>>)

  datatype Event<T> = BeginPush(v: T) | BeginPop | Produce | Consume

  function Fresh<T>(): State<T> {
    State(0, 0, seq(MAILBOX_CAPACITY, _ => None), ProdIdle, ConsIdle, [], [])
  }

  predicate Enabled<T>(s: State<T>, e: Event<T>) {
    && |s.buffer| == MAILBOX_CAPACITY && s.head < MAILBOX_CAPACITY && s.tail < MAILBOX_CAPACITY
    && match e
       case BeginPush(_) => s.prod.ProdIdle? || s.prod.ProdDone?
       case BeginPop => s.cons.ConsIdle? || s.cons.ConsDone?
       case Produce => s.prod.ProdLook? || s.prod.ProdWrite? || s.prod.ProdPublish?
       case Consume => s.cons.ConsLook? || s.cons.ConsRead? || s.cons.ConsRelease?
  }

  function Step<T>(s: State<T>, e: Event<T>): State<T>
    requires Enabled(s, e)
  {
    match e
    case BeginPush(v) => s.(prod := ProdLook(v))
    case BeginPop => s.(cons := ConsLook)
    case Produce => (
      match s.prod
      case ProdLook(v) =>
        s.(prod := if (s.tail + 1) % MAILBOX_CAPACITY == s.head then ProdDone(false) else ProdWrite(v))
      case ProdWrite(v) => s.(buffer := s.buffer[s.tail := Some(v)], prod := ProdPublish(v))
      case ProdPublish(v) =>
        s.(tail := (s.tail + 1) % MAILBOX_CAPACITY, prod := ProdDone(true), pushed := s.pushed + [v])
      case _ => s)
    case Consume => (
      match s.cons
      case ConsLook => s.(cons := if s.head == s.tail then ConsDone(None) else ConsRead)
      case ConsRead => s.(cons := ConsRelease(s.buffer[s.head]))
      case ConsRelease(got) =>
        s.(head := (s.head + 1) % MAILBOX_CAPACITY, cons := ConsDone(got), popped := s.popped + [got])
      case _ => s)
  }

  predicate Valid<T>(s: State<T>, es: seq<Event<T>>)
    decreases |es|
  {
    es == [] || (Enabled(s, es[0]) && Valid(Step(s, es[0]), es[1..]))
  }

  function Run<T>(s: State<T>, es: seq<Event<T>>): State<T>
    requires Valid(s, es)
    decreases |es|
  {
    if es == [] then s else Run(Step(s, es[0]), es[1..])
  }

  /** How many chunks are queued. */
  function Queued<T>(s: State<T>): int { |s.pushed| - |s.popped| }

  ghost predicate Inv<T>(s: State<T>) {
    var t, h := |s.pushed|, |s.popped|;
    && |s.buffer| == MAILBOX_CAPACITY
    && h <= t < h + MAILBOX_CAPACITY
    && s.head == h % MAILBOX_CAPACITY && s.tail == t % MAILBOX_CAPACITY
    && (forall j :: 0 <= j < h ==> s.popped[j] == Some(s.pushed[j]))
    && (forall j {:trigger s.pushed[j]} :: h <= j < t ==> s.buffer[j % MAILBOX_CAPACITY] == Some(s.pushed[j]))
    && (s.prod.ProdWrite? || s.prod.ProdPublish? ==> t + 1 < h + MAILBOX_CAPACITY)
    && (s.prod.ProdPublish? ==> s.buffer[s.tail] == Some(s.prod.v))
    && (s.cons.ConsRead? || s.cons.ConsRelease? ==> h < t)
    && (s.cons.ConsRelease? ==> s.cons.got == Some(s.pushed[h]))
  }

  lemma FreshInv<T>()
    ensures Inv(Fresh<T>())
  {
    ModSmall(0, MAILBOX_CAPACITY);
  }

  /** The masked comparisons say what the unbounded positions say. */
  lemma MaskedTests(h: nat, t: nat)
    requires h <= t < h + MAILBOX_CAPACITY
    ensures (t % MAILBOX_CAPACITY + 1) % MAILBOX_CAPACITY == h % MAILBOX_CAPACITY <==> t - h == MAILBOX_CAPACITY - 1
    ensures t % MAILBOX_CAPACITY == h % MAILBOX_CAPACITY <==> t == h
    ensures (t % MAILBOX_CAPACITY + 1) % MAILBOX_CAPACITY == (t + 1) % MAILBOX_CAPACITY
  {
    ModAddMod(t, 1, MAILBOX_CAPACITY);
    if (t + 1) % MAILBOX_CAPACITY == h % MAILBOX_CAPACITY && t + 1 < h + MAILBOX_CAPACITY {
      ModInjective(t + 1, h, MAILBOX_CAPACITY);
    }
    if t - h == MAILBOX_CAPACITY - 1 { ModNext(h, MAILBOX_CAPACITY); }
    if t % MAILBOX_CAPACITY == h % MAILBOX_CAPACITY { ModInjective(t, h, MAILBOX_CAPACITY); }
  }

  lemma ProduceKeeps<T>(s: State<T>)
    requires Inv(s) && Enabled(s, Produce)
    ensures Inv(Step(s, Produce))
  {
    var t, h := |s.pushed|, |s.popped|;
    MaskedTests(h, t);
    if s.prod.ProdWrite? {
      forall j | h <= j < t ensures j % MAILBOX_CAPACITY != s.tail {
        if j % MAILBOX_CAPACITY == t % MAILBOX_CAPACITY { ModInjective(j, t, MAILBOX_CAPACITY); }
      }
    }
  }

  lemma ConsumeKeeps<T>(s: State<T>)
    requires Inv(s) && Enabled(s, Consume)
    ensures Inv(Step(s, Consume))
  {
    var t, h := |s.pushed|, |s.popped|;
    MaskedTests(h, t);
    ModAddMod(h, 1, MAILBOX_CAPACITY);
  }

  lemma StepKeepsInv<T>(s: State<T>, e: Event<T>)
    requires Inv(s) && Enabled(s, e)
    ensures Inv(Step(s, e))
  {
    match e
    case Produce => ProduceKeeps(s);
    case Consume => ConsumeKeeps(s);
    case _ =>
  }

  lemma {:induction false} RunKeepsInv<T>(s: State<T>, es: seq<Event<T>>)
    requires Inv(s) && Valid(s, es)
    ensures Inv(Run(s, es))
    decreases |es|
  {
    hide Inv;
    if es != [] {
      StepKeepsInv(s, es[0]);
      RunKeepsInv(Step(s, es[0]), es[1..]);
    }
  }

  /** In every interleaving what has come out is, in order, what has gone in, and at most 65535
      chunks are in between. */
  lemma MailIsFifo<T>(es: seq<Event<T>>)
    requires Valid(Fresh<T>(), es)
    ensures var s := Run(Fresh<T>(), es);
            && 0 <= Queued(s) <= MAILBOX_CAPACITY - 1
            && forall j :: 0 <= j < |s.popped| ==> s.popped[j] == Some(s.pushed[j])
  {
    FreshInv<T>();
    RunKeepsInv(Fresh<T>(), es);
  }

  /** The cell being written and the cell being read differ. */
  lemma NoDataRace<T>(es: seq<Event<T>>)
    requires Valid(Fresh<T>(), es)
    requires var s := Run(Fresh<T>(), es); s.prod.ProdWrite? && s.cons.ConsRead?
    ensures var s := Run(Fresh<T>(), es); s.tail != s.head
  {
    var s := Run(Fresh<T>(), es);
    FreshInv<T>();
    RunKeepsInv(Fresh<T>(), es);
    MaskedTests(|s.popped|, |s.pushed|);
  }

  /** A push is refused exactly when 65535 chunks are queued at the instant it looks, a pop finds
      nothing exactly when none is. */
  lemma RefusalsAreReal<T>(s: State<T>)
    requires Inv(s)
    ensures Enabled(s, Produce) && s.prod.ProdLook? ==>
              (Step(s, Produce).prod == ProdDone(false) <==> Queued(s) == MAILBOX_CAPACITY - 1)
    ensures Enabled(s, Consume) && s.cons.ConsLook? ==> (Step(s, Consume).cons == ConsDone(None) <==> Queued(s) == 0)
  {
    MaskedTests(|s.popped|, |s.pushed|);
  }

  // ----- what the callers are told -----

  /** The latest calls, as an onlooker sees them: the chunk to be pushed, and how far each side had
      got when its call began. */
  datatype Calls<T> = Calls(v: Option<T>, pushedBefore: nat, poppedBefore: nat)

  function Watch<T>(c: Calls<T>, s: State<T>, e: Event<T>): Calls<T> {
    match e
    case BeginPush(v) => c.(v := Some(v), pushedBefore := |s.pushed|)
    case BeginPop => c.(poppedBefore := |s.popped|)
    case _ => c
  }

  function WatchRun<T>(c: Calls<T>, s: State<T>, es: seq<Event<T>>): Calls<T>
    requires Valid(s, es)
    decreases |es|
  {
    if es == [] then c else WatchRun(Watch(c, s, es[0]), Step(s, es[0]), es[1..])
  }

  ghost predicate PushFits<T>(s: State<T>, c: Calls<T>) {
    match s.prod
    case ProdIdle => true
    case ProdDone(ok) =>
      if ok then |s.pushed| == c.pushedBefore + 1 && Some(s.pushed[c.pushedBefore]) == c.v
      else |s.pushed| == c.pushedBefore
    case _ => c.v == Some(s.prod.v) && |s.pushed| == c.pushedBefore
  }

  ghost predicate PopFits<T>(s: State<T>, c: Calls<T>) {
    match s.cons
    case ConsIdle => true
    case ConsDone(r) =>
      if r.Some? then |s.popped| == c.poppedBefore + 1 && s.popped[c.poppedBefore] == r
      else |s.popped| == c.poppedBefore
    case _ => |s.popped| == c.poppedBefore
  }

  lemma StepFits<T>(s: State<T>, e: Event<T>, c: Calls<T>)
    requires Inv(s) && Enabled(s, e) && PushFits(s, c) && PopFits(s, c)
    ensures PushFits(Step(s, e), Watch(c, s, e)) && PopFits(Step(s, e), Watch(c, s, e))
  {
  }

  /** In every run: a push reports success exactly if its own chunk has been appended, and a pop
      returns exactly what it has taken out, or nothing. */
  lemma {:induction false} CallsAnswer<T>(s: State<T>, es: seq<Event<T>>, c: Calls<T>)
    requires Inv(s) && Valid(s, es) && PushFits(s, c) && PopFits(s, c)
    ensures PushFits(Run(s, es), WatchRun(c, s, es)) && PopFits(Run(s, es), WatchRun(c, s, es))
    decreases |es|
  {
    hide PushFits;
    hide PopFits;
    if es != [] {
      StepFits(s, es[0], c);
      StepKeepsInv(s, es[0]);
      CallsAnswer(Step(s, es[0]), es[1..], Watch(c, s, es[0]));
    }
  }
}
