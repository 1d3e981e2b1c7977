/** `AtomicWakerSlot`: any number of threads running `register` and `take_and_wake`, one
    access of the source per step.  Wakers are identified with what they wake, so
    `will_wake` is equality.  `owner`, `late` and `missed` are history: the thread between its
    winning exchange and the store that gives the slot back, whether some `take_and_wake` set
    the WAKING bit on a slot that had already been given back, and whether it did so with a
    waker stored there. */
module WakerSlot {
  import opened Wrappers

  type Task = nat

  /** The state word: WAITING is both bits clear. */
  datatype Word = Word(registering: bool, waking: bool)

  const WAITING: Word := Word(false, false)

  datatype Pc =
    | Idle
    | RegCas(w: Task)
    | RegStore(w: Task)
    | RegRelease(w: Task)
    | RegTake
    | RegReset(pending: Option<Task>)
    | TakeCas
    | TakeTake
    | TakeReset(pending: Option<Task>)
    | TakeOr
    | Wake(target: Task)

  datatype State = State(
    word: Word,
    cell: Option<Task>,
    threads: seq<Pc>,
    wakes: seq<Task>,
    owner: Option<nat>,
    late: bool,
    missed: bool)

  datatype Event = Register(t: nat, w: Task) | Take(t: nat) | Advance(t: nat)

  function Fresh(n: nat): State {
    State(WAITING, None, seq(n, _ => Idle), [], None, false, false)
  }

  predicate Enabled(s: State, e: Event) {
    e.t < |s.threads| && (e.Advance? <==> !s.threads[e.t].Idle?)
  }

  function Goto(s: State, t: nat, pc: Pc): State
    requires t < |s.threads|
  {
    s.(threads := s.threads[t := pc])
  }

  function WakeOrRest(pending: Option<Task>): Pc {
    match pending
    case None => Idle
    case Some(w) => Wake(w)
  }

  function Step(s: State, e: Event): (s': State)
    requires Enabled(s, e)
    ensures |s'.threads| == |s.threads|
    ensures forall u :: 0 <= u < |s.threads| && u != e.t ==> s'.threads[u] == s.threads[u]
  {
    match e
    case Register(t, w) => Goto(s, t, RegCas(w))
    case Take(t) => Goto(s, t, TakeCas)
    case Advance(t) =>
      match s.threads[t]
      case RegCas(w) =>
        if s.word == WAITING then Goto(s.(word := Word(true, false), owner := Some(t)), t, RegStore(w))
        else Goto(s, t, Wake(w))
      case RegStore(w) => Goto(s.(cell := Some(w)), t, RegRelease(w))
      case RegRelease(_) =>
        if s.word == Word(true, false) then Goto(s.(word := WAITING, owner := None), t, Idle)
        else Goto(s, t, RegTake)
      case RegTake => Goto(s.(cell := None), t, RegReset(s.cell))
      case RegReset(pending) => Goto(s.(word := WAITING, owner := None), t, WakeOrRest(pending))
      case TakeCas =>
        if s.word == WAITING then Goto(s.(word := Word(false, true), owner := Some(t)), t, TakeTake)
        else Goto(s, t, TakeOr)
      case TakeTake => Goto(s.(cell := None), t, TakeReset(s.cell))
      case TakeReset(pending) => Goto(s.(word := WAITING, owner := None), t, WakeOrRest(pending))
      case TakeOr =>
        Goto(s.(word := s.word.(waking := true),
                late := s.late || s.word == WAITING,
                missed := s.missed || (s.word == WAITING && s.cell.Some?)), t, Idle)
      case Wake(w) => Goto(s.(wakes := s.wakes + [w]), t, Idle)
      case Idle => s
  }

  predicate Valid(s: State, es: seq<Event>)
    decreases |es|
  {
    es == [] || (Enabled(s, es[0]) && Valid(Step(s, es[0]), es[1..]))
  }

  function Run(s: State, es: seq<Event>): (s': State)
    requires Valid(s, es)
    ensures |s'.threads| == |s.threads|
    decreases |es|
  {
    if es == [] then s else Run(Step(s, es[0]), es[1..])
  }

  /** The thread may touch the cell. */
  predicate Inside(pc: Pc) {
    pc.RegStore? || pc.RegRelease? || pc.RegTake? || pc.RegReset? || pc.TakeTake? || pc.TakeReset?
  }

  predicate WordFits(s: State, pc: Pc) {
    && (pc.RegStore? || pc.RegRelease? ==> s.word.registering)
    && (pc.RegTake? || pc.RegReset? ==> s.word == Word(true, true))
    && (pc.TakeTake? || pc.TakeReset? ==> s.word == Word(false, true))
    && (pc.RegReset? || pc.TakeReset? ==> s.cell == None)
  }

  ghost predicate Inv(s: State) {
    && (forall t :: 0 <= t < |s.threads| ==>
          WordFits(s, s.threads[t]) && (Inside(s.threads[t]) <==> s.owner == Some(t)))
    && (s.owner.Some? ==> s.owner.value < |s.threads|)
    && (if s.late then s.owner.None? && s.word == Word(false, true) else s.owner.None? <==> s.word == WAITING)
    && (s.missed <==> s.late && s.cell.Some?)
  }

  /** How many steps of its own a call has left, at most. */
  function StepsLeft(pc: Pc): nat {
    match pc
    case Idle => 0
    case Wake(_) => 1
    case TakeOr => 1
    case RegReset(_) => 2
    case TakeReset(_) => 2
    case RegTake => 3
    case TakeTake => 3
    case RegRelease(_) => 4
    case TakeCas => 4
    case RegStore(_) => 5
    case RegCas(_) => 6
  }

  /** Both calls are wait-free: each step of its own brings a call closer to its end, whatever
      the others do. */
  lemma CallsAreWaitFree(s: State, e: Event, t: nat)
    requires Enabled(s, e) && e.Advance? && t < |s.threads|
    ensures t == e.t ==> StepsLeft(Step(s, e).threads[t]) < StepsLeft(s.threads[t])
    ensures t != e.t ==> Step(s, e).threads[t] == s.threads[t]
  {
  }

  lemma StepKeepsInv(s: State, e: Event)
    requires Inv(s) && Enabled(s, e)
    ensures Inv(Step(s, e))
  {
    assert WordFits(s, s.threads[e.t]);
  }

  lemma {:induction false} RunKeepsInv(s: State, es: seq<Event>)
    requires Inv(s) && Valid(s, es)
    ensures Inv(Run(s, es))
    decreases |es|
  {
    if es != [] {
      StepKeepsInv(s, es[0]);
      RunKeepsInv(Step(s, es[0]), es[1..]);
    }
  }

  /** Under any mix of calls the cell has at most one thread in its critical section, and
      while it has one no other call can enter. */
  lemma MutualExclusion(n: nat, es: seq<Event>, t: nat, u: nat)
    requires Valid(Fresh(n), es)
    requires var s := Run(Fresh(n), es); t < |s.threads| && u < |s.threads| && Inside(s.threads[t])
    ensures var s := Run(Fresh(n), es); s.word != WAITING && (Inside(s.threads[u]) ==> t == u)
  {
    RunKeepsInv(Fresh(n), es);
  }

  /** The slot is taken although nobody is inside to give it back. */
  predicate Stranded(s: State) {
    s.word != WAITING && forall t :: 0 <= t < |s.threads| ==> !Inside(s.threads[t])
  }

  /** That happens exactly when a `take_and_wake` whose exchange failed ran its `fetch_or`
      only after the registration it had seen was over. */
  lemma StrandedIffLate(n: nat, es: seq<Event>)
    requires Valid(Fresh(n), es)
    ensures Stranded(Run(Fresh(n), es)) <==> Run(Fresh(n), es).late
  {
    RunKeepsInv(Fresh(n), es);
  }

  /** ... and it is for good: from then on the word never changes, a stored waker is never
      taken out, and every registration wakes its own waker instead of storing it. */
  lemma {:induction false} StrandedForGood(s: State, es: seq<Event>)
    requires Inv(s) && s.late && Valid(s, es)
    ensures var f := Run(s, es); f.late && Stranded(f) && f.word == s.word && f.cell == s.cell
    decreases |es|
  {
    if es != [] {
      StepKeepsInv(s, es[0]);
      assert Step(s, es[0]).late && Step(s, es[0]).cell == s.cell;
      StrandedForGood(Step(s, es[0]), es[1..]);
    }
  }

  /** A waker is stored, and nothing will ever take it out. */
  predicate Lost(s: State) { Stranded(s) && s.cell.Some? }

  /** A wake is lost exactly when a `take_and_wake` set its bit on a slot that was given back
      with a waker in it. */
  lemma LostIffMissed(n: nat, es: seq<Event>)
    requires Valid(Fresh(n), es)
    ensures Lost(Run(Fresh(n), es)) <==> Run(Fresh(n), es).missed
  {
    RunKeepsInv(Fresh(n), es);
  }

  /** The slot on its own can lose a wake: both calls have returned, the waker is stored,
      and by the lemma above nothing will ever wake it. */
  lemma SlotAloneCanLoseWake(w: Task) returns (es: seq<Event>)
    ensures Valid(Fresh(2), es)
    ensures var f := Run(Fresh(2), es); Lost(f) && f.cell == Some(w) && f.wakes == [] && f.threads == [Idle, Idle]
  {
    var s0 := Fresh(2);
    var s1 := Step(s0, Register(0, w));
    var s2 := Step(s1, Advance(0));
    var s3 := Step(s2, Take(1));
    var s4 := Step(s3, Advance(1));
    assert s4 == State(Word(true, false), None, [RegStore(w), TakeOr], [], Some(0), false, false);
    es := FinishLate(s4, w);
    hide Step;
    es := Prepend(s3, Advance(1), es);
    es := Prepend(s2, Take(1), es);
    es := Prepend(s1, Advance(0), es);
    es := Prepend(s0, Register(0, w), es);
  }

  lemma FinishLate(s: State, w: Task) returns (es: seq<Event>)
    requires s == State(Word(true, false), None, [RegStore(w), TakeOr], [], Some(0), false, false)
    ensures Valid(s, es)
    ensures var f := Run(s, es); Lost(f) && f.cell == Some(w) && f.wakes == [] && f.threads == [Idle, Idle]
  {
    var s1 := Step(s, Advance(0));
    var s2 := Step(s1, Advance(0));
    assert s2 == State(WAITING, Some(w), [Idle, TakeOr], [], None, false, false);
    var s3 := Step(s2, Advance(1));
    assert s3 == State(Word(false, true), Some(w), [Idle, Idle], [], None, true, true);
    es := [];
    hide Step;
    es := Prepend(s2, Advance(1), es);
    es := Prepend(s1, Advance(0), es);
    es := Prepend(s, Advance(0), es);
  }

  lemma Prepend(s: State, e: Event, es: seq<Event>) returns (r: seq<Event>)
    requires Enabled(s, e) && Valid(Step(s, e), es)
    ensures Valid(s, r) && Run(s, r) == Run(Step(s, e), es)
  {
    r := [e] + es;
    assert r[1..] == es;
  }
}
