/** `SpscQueue` with one producer thread and one consumer thread, one access per step: the
    loads of the two 64-bit counters, every element of the bulk copies, and the publishing
    stores.  `push` and `pop` are the calls with a single element.  `pushed` and `popped`
    are history, which no step reads. */
module SpscRing {
  import opened Arith
  import opened Wrappers

  datatype Producer<T> =
    | ProdIdle
    | ProdHead(src: seq<T>, tail: nat)
    | ProdCopy(src: seq<T>, tail: nat, n: nat, k: nat)
    | ProdDone(count: nat)

  datatype Consumer<T> =
    | ConsIdle
    | ConsTail(want: nat, head: nat)
    | ConsCopy(head: nat, n: nat, got: seq<Option<T>>)
    | ConsDone(out: seq<Option<T>>)

  datatype State<T> = State(
    cap: nat,
    head: nat,
    tail: nat,
    buffer: seq<Option<T>>,
    prod: Producer<T>,
    cons: Consumer<T>,
    pushed: seq<T>,
    popped: seq<Option<T>>)

  datatype Event<T> = BeginPush(src: seq<T>) | BeginPop(want: nat) | Produce | Consume

  predicate Shape<T>(s: State<T>) {
    0 < s.cap == |s.buffer|
  }

  function Fresh<T>(cap: nat): State<T> {
    State(cap, 0, 0, seq(cap, _ => None), ProdIdle, ConsIdle, [], [])
  }

  /** Where element `k` of a copy that starts at counter value `from` lands: a first run up
      to the end of the buffer, then a second one from its beginning. */
  function Slot(cap: nat, from: nat, n: nat, k: nat): (i: nat)
    requires 0 < cap && k < n <= cap
    ensures i < cap
  {
    var start := from % cap;
    var first := Min(n, cap - start);
    if k < first then start + k else k - first
  }

  predicate Enabled<T>(s: State<T>, e: Event<T>) {
    && Shape(s)
    && match e
       case BeginPush(_) => s.prod.ProdIdle? || s.prod.ProdDone?
       case BeginPop(_) => s.cons.ConsIdle? || s.cons.ConsDone?
       case Produce =>
         s.prod.ProdHead? || (s.prod.ProdCopy? && s.prod.k <= s.prod.n <= Min(|s.prod.src|, s.cap))
       case Consume =>
         s.cons.ConsTail? || (s.cons.ConsCopy? && |s.cons.got| <= s.cons.n <= s.cap)
  }

  function Step<T>(s: State<T>, e: Event<T>): (s': State<T>)
    requires Enabled(s, e)
    ensures Shape(s') && s'.cap == s.cap
  {
    match e
    case BeginPush(src) => s.(prod := ProdHead(src, s.tail))
    case BeginPop(want) => s.(cons := ConsTail(want, s.head))
    case Produce =>
      (match s.prod
       case ProdHead(src, tail) =>
         var free := s.cap - (tail - s.head) % WORD64;
         var n := if free < 0 then 0 else Min(free, |src|);
         if n == 0 then s.(prod := ProdDone(0)) else s.(prod := ProdCopy(src, tail, n, 0))
       case ProdCopy(src, tail, n, k) =>
         if k < n then
           s.(buffer := s.buffer[Slot(s.cap, tail, n, k) := Some(src[k])], prod := ProdCopy(src, tail, n, k + 1))
         else s.(tail := (tail + n) % WORD64, pushed := s.pushed + src[..n], prod := ProdDone(n)))
    case Consume =>
      (match s.cons
       case ConsTail(want, head) =>
         var n := Min((s.tail - head) % WORD64, want);
         if n == 0 then s.(cons := ConsDone([])) else s.(cons := ConsCopy(head, n, []))
       case ConsCopy(head, n, got) =>
         if |got| < n then s.(cons := ConsCopy(head, n, got + [s.buffer[Slot(s.cap, head, n, |got|)]]))
         else s.(head := (head + n) % WORD64, popped := s.popped + got, cons := ConsDone(got)))
  }

  predicate Valid<T>(s: State<T>, es: seq<Event<T>>)
    decreases |es|
  {
    es == [] || (Enabled(s, es[0]) && Valid(Step(s, es[0]), es[1..]))
  }

  function Run<T>(s: State<T>, es: seq<Event<T>>): (s': State<T>)
    requires Valid(s, es)
    ensures Shape(s) ==> Shape(s') && s'.cap == s.cap
    decreases |es|
  {
    if es == [] then s else Run(Step(s, es[0]), es[1..])
  }

  // ----- what every run keeps -----

  ghost predicate Inv<T>(s: State<T>) {
    var t, h := |s.pushed|, |s.popped|;
    && Shape(s)
    && IsPow2(s.cap) && s.cap < WORD64
    && h <= t <= h + s.cap
    && s.head == h % WORD64 && s.tail == t % WORD64
    && (forall j :: 0 <= j < h ==> s.popped[j] == Some(s.pushed[j]))
    && (forall j {:trigger s.pushed[j]} :: h <= j < t ==> s.buffer[j % s.cap] == Some(s.pushed[j]))
    && ProducerOk(s)
    && ConsumerOk(s)
  }

  ghost predicate ProducerOk<T>(s: State<T>)
    requires Shape(s)
  {
    match s.prod
    case ProdHead(_, tail) => tail == s.tail
    case ProdCopy(src, tail, n, k) =>
      && tail == s.tail && 0 < n <= |src| && k <= n
      && |s.pushed| + n <= |s.popped| + s.cap
      && (forall j {:trigger src[j]} :: 0 <= j < k ==> s.buffer[(|s.pushed| + j) % s.cap] == Some(src[j]))
    case _ => true
  }

  ghost predicate ConsumerOk<T>(s: State<T>)
    requires Shape(s)
  {
    match s.cons
    case ConsTail(_, head) => head == s.head
    case ConsCopy(head, n, got) =>
      && head == s.head && 0 < n && |s.popped| + n <= |s.pushed| && |got| <= n
      && (forall j :: 0 <= j < |got| ==> got[j] == Some(s.pushed[|s.popped| + j]))
    case _ => true
  }

  lemma FreshInv<T>(cap: nat)
    requires IsPow2(cap) && cap < WORD64
    ensures Inv(Fresh<T>(cap))
  {
    Pow2Divides64(cap);
    ModSmall(0, WORD64);
  }

  /** The split copy writes the cell of the unbounded position, although it works with the
      wrapped counter. */
  lemma SlotIsPosition(cap: nat, count: nat, n: nat, k: nat)
    requires IsPow2(cap) && cap < WORD64 && k < n <= cap
    ensures 0 < cap && Slot(cap, count % WORD64, n, k) == (count + k) % cap
  {
    Pow2Divides64(cap);
    ModOfMod(count, cap, WORD64 / cap);
    var start := count % cap;
    ModAddMod(count, k, cap);
    if start + k < cap {
      ModSmall(start + k, cap);
    } else {
      ModStep(start + k - cap, 1, cap);
      ModSmall(start + k - cap, cap);
    }
  }

  /** The wrapped difference of the counters is the number of queued elements. */
  lemma WrappedDistance(t: nat, h: nat)
    requires h <= t < h + WORD64
    ensures (t % WORD64 - h % WORD64) % WORD64 == t - h
  {
    ModSubMod(t % WORD64, h, WORD64);
    var back: int := h;
    ModAddMod(t, -back, WORD64);
    ModSmall(t - h, WORD64);
  }

  lemma ProduceElement<T>(s: State<T>)
    requires Inv(s) && Enabled(s, Produce) && s.prod.ProdCopy? && s.prod.k < s.prod.n
    ensures Inv(Step(s, Produce))
  {
    var t := |s.pushed|;
    var ProdCopy(src, tail, n, k) := s.prod;
    SlotIsPosition(s.cap, t, n, k);
    var s' := Step(s, Produce);
    forall j | |s'.popped| <= j < t ensures s'.buffer[j % s.cap] == Some(s'.pushed[j]) {
      if j % s.cap == (t + k) % s.cap { ModInjective(j, t + k, s.cap); }
    }
    forall j | 0 <= j < k + 1 ensures s'.buffer[(t + j) % s.cap] == Some(src[j]) {
      if j < k && (t + j) % s.cap == (t + k) % s.cap { ModInjective(t + j, t + k, s.cap); }
    }
  }

  lemma ProducePublish<T>(s: State<T>)
    requires Inv(s) && Enabled(s, Produce) && s.prod.ProdCopy? && s.prod.k == s.prod.n
    ensures Inv(Step(s, Produce))
  {
    var t := |s.pushed|;
    var ProdCopy(src, tail, n, k) := s.prod;
    var s' := Step(s, Produce);
    ModAddMod(t, n, WORD64);
    forall j | |s'.popped| <= j < t + n ensures s'.buffer[j % s.cap] == Some(s'.pushed[j]) {
      if j >= t { assert s'.pushed[j] == src[j - t]; } else { assert s'.pushed[j] == s.pushed[j]; }
    }
  }

  lemma ProduceLook<T>(s: State<T>)
    requires Inv(s) && Enabled(s, Produce) && s.prod.ProdHead?
    ensures Inv(Step(s, Produce))
  {
    WrappedDistance(|s.pushed|, |s.popped|);
  }

  lemma ConsumeElement<T>(s: State<T>)
    requires Inv(s) && Enabled(s, Consume) && s.cons.ConsCopy? && |s.cons.got| < s.cons.n
    ensures Inv(Step(s, Consume))
  {
    var h := |s.popped|;
    var ConsCopy(head, n, got) := s.cons;
    SlotIsPosition(s.cap, h, n, |got|);
    assert s.buffer[(h + |got|) % s.cap] == Some(s.pushed[h + |got|]);
  }

  lemma ConsumePublish<T>(s: State<T>)
    requires Inv(s) && Enabled(s, Consume) && s.cons.ConsCopy? && |s.cons.got| == s.cons.n
    ensures Inv(Step(s, Consume))
  {
    ModAddMod(|s.popped|, s.cons.n, WORD64);
  }

  lemma ConsumeLook<T>(s: State<T>)
    requires Inv(s) && Enabled(s, Consume) && s.cons.ConsTail?
    ensures Inv(Step(s, Consume))
  {
    WrappedDistance(|s.pushed|, |s.popped|);
  }

  lemma StepKeepsInv<T>(s: State<T>, e: Event<T>)
    requires Inv(s) && Enabled(s, e)
    ensures Inv(Step(s, e))
  {
    match e
    case Produce =>
      if s.prod.ProdHead? { ProduceLook(s); }
      else if s.prod.k < s.prod.n { ProduceElement(s); }
      else { ProducePublish(s); }
    case Consume =>
      if s.cons.ConsTail? { ConsumeLook(s); }
      else if |s.cons.got| < s.cons.n { ConsumeElement(s); }
      else { ConsumePublish(s); }
    case _ =>
  }

  lemma {:induction false} RunKeepsInv<T>(s: State<T>, es: seq<Event<T>>)
    requires Inv(s) && Valid(s, es)
    ensures Inv(Run(s, es))
    decreases |es|
  {
    if es != [] {
      StepKeepsInv(s, es[0]);
      RunKeepsInv(Step(s, es[0]), es[1..]);
    }
  }

  // ----- stream correctness -----

  function Somes<T>(xs: seq<T>): (r: seq<Option<T>>) {
    seq(|xs|, i requires 0 <= i < |xs| => Some(xs[i]))
  }

  /** In every interleaving, across any number of counter wraps, what has come out is a
      prefix of what has gone in, and at most one buffer's worth is in between. */
  lemma PoppedIsPrefixOfPushed<T>(cap: nat, es: seq<Event<T>>)
    requires IsPow2(cap) && cap < WORD64 && Valid(Fresh<T>(cap), es)
    ensures var f := Run(Fresh<T>(cap), es);
            |f.popped| <= |f.pushed| <= |f.popped| + cap && f.popped == Somes(f.pushed[..|f.popped|])
  {
    FreshInv<T>(cap);
    RunKeepsInv(Fresh<T>(cap), es);
  }

  /** The element the producer is writing and the one the consumer is reading are never in
      the same cell. */
  lemma NoDataRace<T>(cap: nat, es: seq<Event<T>>)
    requires IsPow2(cap) && cap < WORD64 && Valid(Fresh<T>(cap), es)
    requires var f := Run(Fresh<T>(cap), es);
             && f.prod.ProdCopy? && f.prod.k < f.prod.n <= cap && f.cons.ConsCopy? && |f.cons.got| < f.cons.n <= cap
    ensures var f := Run(Fresh<T>(cap), es);
            Slot(cap, f.prod.tail, f.prod.n, f.prod.k) != Slot(cap, f.cons.head, f.cons.n, |f.cons.got|)
  {
    var f := Run(Fresh<T>(cap), es);
    FreshInv<T>(cap);
    RunKeepsInv(Fresh<T>(cap), es);
    var w, r := |f.pushed| + f.prod.k, |f.popped| + |f.cons.got|;
    SlotIsPosition(cap, |f.pushed|, f.prod.n, f.prod.k);
    SlotIsPosition(cap, |f.popped|, f.cons.n, |f.cons.got|);
    if w % cap == r % cap { ModInjective(w, r, cap); }
  }

  /** A producer is turned away only if, when it looked, the buffer was full or it had
      nothing to write, and otherwise sets out to write as much as there was room for; a consumer
      gets nothing only if the buffer was empty or it asked for nothing, and otherwise sets out
      to take as much as was there. */
  lemma RefusalsAreReal<T>(s: State<T>)
    requires Inv(s)
    ensures Enabled(s, Produce) && s.prod.ProdHead? ==>
              (Step(s, Produce).prod == ProdDone(0) <==> |s.pushed| - |s.popped| == s.cap || s.prod.src == [])
    ensures Enabled(s, Produce) && s.prod.ProdHead? && Step(s, Produce).prod != ProdDone(0) ==>
              var n := Min(s.cap + |s.popped| - |s.pushed|, |s.prod.src|);
              Step(s, Produce).prod == ProdCopy(s.prod.src, s.prod.tail, n, 0)
    ensures Enabled(s, Consume) && s.cons.ConsTail? ==>
              (Step(s, Consume).cons == ConsDone([]) <==> |s.pushed| == |s.popped| || s.cons.want == 0)
    ensures Enabled(s, Consume) && s.cons.ConsTail? && Step(s, Consume).cons != ConsDone([]) ==>
              Step(s, Consume).cons == ConsCopy(s.cons.head, Min(|s.pushed| - |s.popped|, s.cons.want), [])
  {
    WrappedDistance(|s.pushed|, |s.popped|);
  }

  // ----- what the callers are told -----

  /** The latest calls, as an onlooker sees them: what was to be pushed, how much was wanted, and
      how far each side of the stream had got when its call began. */
  datatype Calls<T> = Calls(src: seq<T>, pushedBefore: nat, want: nat, poppedBefore: nat)

  function Watch<T>(c: Calls<T>, s: State<T>, e: Event<T>): Calls<T> {
    match e
    case BeginPush(src) => c.(src := src, pushedBefore := |s.pushed|)
    case BeginPop(want) => c.(want := want, poppedBefore := |s.popped|)
    case _ => c
  }

  function WatchRun<T>(c: Calls<T>, s: State<T>, es: seq<Event<T>>): Calls<T>
    requires Valid(s, es)
    decreases |es|
  {
    if es == [] then c else WatchRun(Watch(c, s, es[0]), Step(s, es[0]), es[1..])
  }

  ghost predicate PushFits<T>(s: State<T>, c: Calls<T>) {
    match s.prod
    case ProdIdle => true
    case ProdHead(src, _) => src == c.src && |s.pushed| == c.pushedBefore
    case ProdCopy(src, _, n, _) => src == c.src && |s.pushed| == c.pushedBefore && n <= |src|
    case ProdDone(count) =>
      && count <= |c.src| && |s.pushed| == c.pushedBefore + count
      && s.pushed[c.pushedBefore..] == c.src[..count]
  }

  ghost predicate PopFits<T>(s: State<T>, c: Calls<T>) {
    match s.cons
    case ConsIdle => true
    case ConsTail(want, _) => want == c.want && |s.popped| == c.poppedBefore
    case ConsCopy(_, n, _) => n <= c.want && |s.popped| == c.poppedBefore
    case ConsDone(out) =>
      |out| <= c.want && |s.popped| == c.poppedBefore + |out| && s.popped[c.poppedBefore..] == out
  }

  lemma StepFits<T>(s: State<T>, e: Event<T>, c: Calls<T>)
    requires Inv(s) && Enabled(s, e) && PushFits(s, c) && PopFits(s, c)
    ensures PushFits(Step(s, e), Watch(c, s, e)) && PopFits(Step(s, e), Watch(c, s, e))
  {
    var s' := Step(s, e);
    if e.Produce? && s.prod.ProdCopy? && s.prod.k == s.prod.n {
      assert s'.pushed[c.pushedBefore..] == c.src[..s.prod.n];
    }
    if e.Consume? && s.cons.ConsCopy? && |s.cons.got| == s.cons.n {
      assert s'.popped[c.poppedBefore..] == s.cons.got;
    }
  }

  /** In every run: a push returns the number of elements it has appended to the stream, and they
      are the first ones it was given; a pop returns exactly what it has taken off the stream,
      no more than it asked for. */
  lemma {:induction false} CallsAnswer<T>(s: State<T>, es: seq<Event<T>>, c: Calls<T>)
    requires Inv(s) && Valid(s, es) && PushFits(s, c) && PopFits(s, c)
    ensures PushFits(Run(s, es), WatchRun(c, s, es)) && PopFits(Run(s, es), WatchRun(c, s, es))
    decreases |es|
  {
    hide PushFits;
    hide PopFits;
    if es != [] {
      StepFits(s, es[0], c);
      StepKeepsInv(s, es[0]);
      CallsAnswer(Step(s, es[0]), es[1..], Watch(c, s, es[0]));
    }
  }
}
